/** Sequential fallback routing of an inbound voice call.

    `/voice/incoming` rings the first configured number and names
    `/voice/next` as the follow-up; `/voice/next` rings the second number when
    the first leg did not complete, and apologises otherwise. The two steps
    share no memory: each one re-splits the comma-separated configuration.
    TwiML is modelled as a list of verbs, not as XML text. */
module Voice {
  import opened Js

  /** One TwiML instruction. `action` and `timeout` are `None` when not given. */
  datatype Verb =
    | Dial(number: string, action: Option<string>, timeout: Option<nat>)
    | Say(text: string)

  /** A `<Response>` document: its verbs, in order. */
  datatype VoiceResponse = VoiceResponse(verbs: seq<Verb>)

  const Separator: char := ','
  const NextAction: string := "/voice/next"
  const RingTimeout: nat := 20
  const Completed: string := "completed"
  const Apology: string := "Sorry, no one is available to take your call."

  /** `FORWARD_TO_NUMBER.split(',')`. */
  function Numbers(forwardTo: string): (numbers: seq<string>)
  {
    Split(forwardTo, Separator)
  }

  /** Reference definition of the primary number, without splitting:
      the text before the first comma, or the whole string. */
  function FirstNumber(forwardTo: string): (primary: string)
  {
    forwardTo[..IndexOf(forwardTo, Separator)]
  }

  /** Reference definition of the fallback number, without splitting: the text
      between the first and the second comma (or the end), or `undefined` when
      there is no comma at all. */
  function SecondNumber(forwardTo: string): (fallback: Field)
  {
    var i := IndexOf(forwardTo, Separator);
    if i == |forwardTo| then None
    else
      var t := forwardTo[i + 1..];
      Some(t[..IndexOf(t, Separator)])
  }

  /** The split list's first two entries are the reference numbers. */
  lemma NumbersHead(forwardTo: string)
    ensures Numbers(forwardTo)[0] == FirstNumber(forwardTo)
    ensures At(Numbers(forwardTo), 1) == SecondNumber(forwardTo)
  {
    var i := IndexOf(forwardTo, Separator);
    SplitAtFirst(forwardTo, Separator);
    assert forwardTo[..|forwardTo|] == forwardTo;
    if i < |forwardTo| {
      var t := forwardTo[i + 1..];
      SplitAtFirst(t, Separator);
      assert t[..|t|] == t;
      assert Numbers(forwardTo)[1] == Split(t, Separator)[0];
    }
  }

  /** `/voice/incoming`: one dial, to the first number, with a 20-second ring
      timeout and `/voice/next` as the follow-up action. */
  function Incoming(forwardTo: string): (r: VoiceResponse)
    ensures r.verbs == [Dial(FirstNumber(forwardTo), Some(NextAction), Some(RingTimeout))]
  {
    NumbersHead(forwardTo);
    VoiceResponse([Dial(Numbers(forwardTo)[0], Some(NextAction), Some(RingTimeout))])
  }

  /** `/voice/next`: dial the fallback number exactly when the first leg's status
      is not "completed" (an absent status counts as not completed) and the
      fallback number is present and non-empty; otherwise the apology. */
  function Next(forwardTo: string, dialCallStatus: Field): (r: VoiceResponse)
    ensures var second := SecondNumber(forwardTo);
      if dialCallStatus != Some(Completed) && Truthy(second)
      then r.verbs == [Dial(second.value, None, None)]
      else r.verbs == [Say(Apology)]
  {
    NumbersHead(forwardTo);
    var numbers := Numbers(forwardTo);
    if dialCallStatus != Some(Completed) && Truthy(At(numbers, 1)) then
      VoiceResponse([Dial(numbers[1], None, None)])
    else
      VoiceResponse([Say(Apology)])
  }

  /** The same rule phrased over the split list: `/voice/next` dials
      `numbers[1]` if and only if the status is not "completed" and
      `numbers[1]` exists and is non-empty. */
  lemma NextDialsIff(forwardTo: string, dialCallStatus: Field)
    ensures var numbers := Numbers(forwardTo);
      && (Next(forwardTo, dialCallStatus).verbs[0].Dial? <==>
           dialCallStatus != Some(Completed) && |numbers| >= 2 && numbers[1] != "")
      && (Next(forwardTo, dialCallStatus).verbs[0].Dial? ==>
           Next(forwardTo, dialCallStatus).verbs == [Dial(numbers[1], None, None)])
      && (!Next(forwardTo, dialCallStatus).verbs[0].Dial? ==>
           Next(forwardTo, dialCallStatus).verbs == [Say(Apology)])
  {
  }

  /** A trailing comma configures an empty fallback, which JavaScript treats as
      false: `/voice/next` apologises instead of dialling "". */
  lemma TrailingCommaApologises(primary: string, dialCallStatus: Field)
    requires Separator !in primary
    ensures Numbers(primary + [Separator]) == [primary, ""]
    ensures Next(primary + [Separator], dialCallStatus).verbs == [Say(Apology)]
  {
    SplitJoin([primary, ""], Separator);
    assert Join([primary, ""], Separator) == primary + [Separator];
  }

  /** A completed first leg always ends in the apology, however many numbers are configured. */
  lemma CompletedApologises(forwardTo: string)
    ensures Next(forwardTo, Some(Completed)).verbs == [Say(Apology)]
  {
  }

  /** Numbers at index 2 and beyond never influence either step: appending more
      numbers to a two-number configuration changes neither response. */
  lemma LaterNumbersIgnored(primary: string, fallback: string, later: string, dialCallStatus: Field)
    requires Separator !in primary && Separator !in fallback
    ensures var two := primary + [Separator] + fallback;
      var more := two + [Separator] + later;
      && Incoming(more) == Incoming(two) == VoiceResponse([Dial(primary, Some(NextAction), Some(RingTimeout))])
      && Next(more, dialCallStatus) == Next(two, dialCallStatus)
  {
    var two := primary + [Separator] + fallback;
    var rest := fallback + [Separator] + later;
    var more := primary + [Separator] + rest;
    assert two + [Separator] + later == more;
    IndexOfAfterPlain(primary, fallback, Separator);
    IndexOfAfterPlain(primary, rest, Separator);
    IndexOfAfterPlain(fallback, later, Separator);
    NoSeparatorIndex(fallback);
    assert two[..|primary|] == primary && more[..|primary|] == primary;
    assert two[|primary| + 1..] == fallback && fallback[..|fallback|] == fallback;
    assert more[|primary| + 1..] == rest && rest[..|fallback|] == fallback;
    assert FirstNumber(more) == FirstNumber(two) == primary;
    assert SecondNumber(more) == SecondNumber(two) == Some(fallback);
  }

  /** A string without a comma has its "first comma" at its end. */
  lemma NoSeparatorIndex(s: string)
    requires Separator !in s
    ensures IndexOf(s, Separator) == |s|
  {
  }

  /** Typical runs of the fallback routing: no answer on "A" moves on to "B";
      with only "A" configured, or after a completed leg, the caller hears the apology. */
  lemma FallbackScenarios()
    ensures Incoming("A,B").verbs == [Dial("A", Some(NextAction), Some(RingTimeout))]
    ensures Next("A,B", Some("no-answer")).verbs == [Dial("B", None, None)]
    ensures Next("A,B", None).verbs == [Dial("B", None, None)]
    ensures Next("A", Some("no-answer")).verbs == [Say(Apology)]
    ensures Next("A,B", Some(Completed)).verbs == [Say(Apology)]
    ensures Next("A,", Some("busy")).verbs == [Say(Apology)]
  {
    var ab := "A" + [Separator] + "B";
    assert ab == "A,B";
    IndexOfAfterPlain("A", "B", Separator);
    NoSeparatorIndex("A");
    NoSeparatorIndex("B");
    assert ab[..1] == "A" && ab[2..] == "B" && "B"[..1] == "B";
    assert SecondNumber(ab) == Some("B");
    assert "A"[..1] == "A";
    assert SecondNumber("A") == None;
    TrailingCommaApologises("A", Some("busy"));
    assert "A," == "A" + [Separator];
  }
}
