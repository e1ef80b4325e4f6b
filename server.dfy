/** The request handlers of the dialer backend and the in-memory log they append to.

    The log is one process-wide list that handlers push to; here it is the
    `logs` field of a `Backend` object. The telephony provider is not called:
    its outcome for the request (a created resource id, or an error message) is
    a parameter, and so is the timestamp each entry records. Environment
    configuration is a parameter as well. */
module Server {
  import opened Js
  import Voice

  /** An ISO-8601 time stamp, opaque to the model. */
  type Timestamp = string

  /** What the provider's `calls.create` or `messages.create` resolved to. */
  datatype ProviderOutcome = Success(sid: string) | Failure(message: string)

  /** What a handler asks the provider to create. */
  datatype ProviderRequest =
    | CreateCall(to: Field, from: string, twiml: string)
    | CreateMessage(to: Field, from: string, body: Field)

  /** One record of the log, tagged by the handler that wrote it. */
  datatype LogEntry =
    | CallEntry(to: Field, agent: Field, sid: string, time: Timestamp)
    | SmsEntry(to: Field, agent: Field, message: Field, sid: string, time: Timestamp)
    | InboundSmsEntry(from: Field, to: Field, message: Field, time: Timestamp)
    | RecordingEntry(callSid: Field, recordingUrl: Field, time: Timestamp)
  {
    /** The record's `type` tag. */
    function Type(): (tag: string)
    {
      match this
      case CallEntry(_, _, _, _) => "call"
      case SmsEntry(_, _, _, _, _) => "sms"
      case InboundSmsEntry(_, _, _, _) => "inbound_sms"
      case RecordingEntry(_, _, _) => "call_recording"
    }
  }

  /** The JSON body of an outbound endpoint's reply. */
  datatype Envelope = Succeeded(sid: string) | Errored(message: string)
  {
    /** The envelope's `status` field. */
    function Status(): (status: string)
    {
      if Succeeded? then "success" else "error"
    }
  }

  /** An HTTP reply: JSON with a status code, fixed XML text, TwiML, or a bare status. */
  datatype HttpResponse =
    | Json(code: nat, envelope: Envelope)
    | Xml(markup: string)
    | Twiml(voice: Voice.VoiceResponse)
    | StatusOnly(code: nat)

  /** The configuration the handlers read from the environment. */
  datatype Env = Env(twilioNumber: string, forwardTo: string)

  const AnnouncementPrefix: string := "Hello from your Bitrix dialer! This is a test call for "

  /** The fixed auto-reply to an inbound SMS, whitespace included. */
  const SmsAcknowledgement: string :=
    "\n    <Response>\n      <Message>Thank you for your message! We'll get back to you soon.</Message>\n    </Response>\n  "

  /** The sentence an outbound call speaks. */
  function Announcement(agent: Field): (sentence: string)
  {
    AnnouncementPrefix + Interpolate(agent) + "."
  }

  /** The TwiML document handed to the provider for an outbound call. */
  function CallTwiml(agent: Field): (twiml: string)
  {
    "<Response><Say>" + Announcement(agent) + "</Say></Response>"
  }

  /** The agent's name can be read back out of the announcement: the sentence
      is the fixed prefix, the interpolated agent, and a full stop. */
  lemma AnnouncementNamesAgent(agent: Field)
    ensures var a := Announcement(agent);
      && |a| == |AnnouncementPrefix| + |Interpolate(agent)| + 1
      && a[..|AnnouncementPrefix|] == AnnouncementPrefix
      && a[|AnnouncementPrefix|..|a| - 1] == Interpolate(agent)
      && a[|a| - 1] == '.'
  {
    var a := Announcement(agent);
    assert a == AnnouncementPrefix + (Interpolate(agent) + ".");
  }

  /** Two announcements are equal only for the same interpolated agent. */
  lemma AnnouncementInjective(agent1: Field, agent2: Field)
    requires Announcement(agent1) == Announcement(agent2)
    ensures Interpolate(agent1) == Interpolate(agent2)
  {
    AnnouncementNamesAgent(agent1);
    AnnouncementNamesAgent(agent2);
  }

  /** One request to the server, with what the environment supplies for it. */
  datatype Request =
    | PostCall(body: Form, outcome: ProviderOutcome, time: Timestamp)
    | PostSmsSend(body: Form, outcome: ProviderOutcome, time: Timestamp)
    | PostSmsReceive(body: Form, time: Timestamp)
    | PostVoiceIncoming(body: Form)
    | PostVoiceNext(body: Form)
    | PostRecordingCompleted(body: Form, time: Timestamp)

  /** The requests whose handler writes to the log: the two inbound webhooks
      always, the two outbound endpoints when the provider succeeded. */
  predicate Logs(r: Request)
  {
    || r.PostSmsReceive?
    || r.PostRecordingCompleted?
    || ((r.PostCall? || r.PostSmsSend?) && r.outcome.Success?)
  }

  /** The entries one request appends to the log. */
  function Appended(r: Request): (entries: seq<LogEntry>)
    ensures |entries| == if Logs(r) then 1 else 0
    ensures forall k :: 0 <= k < |entries| ==> entries[k].time == r.time
    ensures forall k :: 0 <= k < |entries| ==> entries[k].Type() == match r
      case PostCall(_, _, _) => "call"
      case PostSmsSend(_, _, _) => "sms"
      case PostSmsReceive(_, _) => "inbound_sms"
      case _ => "call_recording"
    ensures forall k :: 0 <= k < |entries| && (r.PostCall? || r.PostSmsSend?) ==>
      (entries[k].CallEntry? || entries[k].SmsEntry?) &&
      entries[k].sid == r.outcome.sid && entries[k].to == Get(r.body, "phone") && entries[k].agent == Get(r.body, "agent")
  {
    match r
    case PostCall(body, outcome, time) =>
      if outcome.Success? then [CallEntry(Get(body, "phone"), Get(body, "agent"), outcome.sid, time)] else []
    case PostSmsSend(body, outcome, time) =>
      if outcome.Success?
      then [SmsEntry(Get(body, "phone"), Get(body, "agent"), Get(body, "message"), outcome.sid, time)]
      else []
    case PostSmsReceive(body, time) =>
      [InboundSmsEntry(Get(body, "From"), Get(body, "To"), Get(body, "Body"), time)]
    case PostVoiceIncoming(_) => []
    case PostVoiceNext(_) => []
    case PostRecordingCompleted(body, time) =>
      [RecordingEntry(Get(body, "CallSid"), Get(body, "RecordingUrl"), time)]
  }

  /** The reply to one request. */
  function Reply(r: Request, env: Env): (resp: HttpResponse)
  {
    match r
    case PostCall(_, outcome, _) =>
      if outcome.Success? then Json(200, Succeeded(outcome.sid)) else Json(500, Errored(outcome.message))
    case PostSmsSend(_, outcome, _) =>
      if outcome.Success? then Json(200, Succeeded(outcome.sid)) else Json(500, Errored(outcome.message))
    case PostSmsReceive(_, _) => Xml(SmsAcknowledgement)
    case PostVoiceIncoming(_) => Twiml(Voice.Incoming(env.forwardTo))
    case PostVoiceNext(body) => Twiml(Voice.Next(env.forwardTo, Get(body, "DialCallStatus")))
    case PostRecordingCompleted(_, _) => StatusOnly(200)
  }

  /** An outbound endpoint answers "success" exactly when it logged, and then
      the sid it answers is the sid it logged; otherwise it answers 500 with
      the provider's message. */
  lemma OutboundReplyMatchesLog(r: Request, env: Env)
    requires r.PostCall? || r.PostSmsSend?
    ensures Reply(r, env).Json?
    ensures Reply(r, env).envelope.Succeeded? <==> |Appended(r)| == 1
    ensures Reply(r, env).envelope.Succeeded? ==>
      Reply(r, env).code == 200 && Reply(r, env).envelope.Status() == "success" &&
      Appended(r)[0].sid == Reply(r, env).envelope.sid == r.outcome.sid
    ensures Reply(r, env).envelope.Errored? ==>
      Reply(r, env).code == 500 && Reply(r, env).envelope.Status() == "error" &&
      Reply(r, env).envelope.message == r.outcome.message
  {
  }

  /** The log after a sequence of requests, starting from `log`. */
  function Replay(log: seq<LogEntry>, rs: seq<Request>): (logAfter: seq<LogEntry>)
    decreases |rs|
  {
    if |rs| == 0 then log else Replay(log + Appended(rs[0]), rs[1..])
  }

  /** Everything a sequence of requests appends, in request order. */
  function AllAppended(rs: seq<Request>): (entries: seq<LogEntry>)
  {
    if |rs| == 0 then [] else Appended(rs[0]) + AllAppended(rs[1..])
  }

  /** How many requests of the sequence write to the log. */
  function LoggingCount(rs: seq<Request>): (n: nat)
  {
    if |rs| == 0 then 0 else (if Logs(rs[0]) then 1 else 0) + LoggingCount(rs[1..])
  }

  /** The log is append-only: replaying requests only ever adds their entries,
      in order, after the existing ones. */
  lemma {:induction false} ReplayAppends(log: seq<LogEntry>, rs: seq<Request>)
    ensures Replay(log, rs) == log + AllAppended(rs)
    decreases |rs|
  {
    if |rs| > 0 {
      ReplayAppends(log + Appended(rs[0]), rs[1..]);
    }
  }

  /** Each request contributes exactly one entry if it logs and none otherwise. */
  lemma {:induction false} AllAppendedLength(rs: seq<Request>)
    ensures |AllAppended(rs)| == LoggingCount(rs)
  {
    if |rs| > 0 {
      AllAppendedLength(rs[1..]);
    }
  }

  /** Starting from an empty log, N logging requests leave exactly N entries,
      and the entries already present are never changed. */
  lemma ReplayLength(log: seq<LogEntry>, rs: seq<Request>)
    ensures |Replay(log, rs)| == |log| + LoggingCount(rs)
    ensures Replay(log, rs)[..|log|] == log
    ensures |Replay([], rs)| == LoggingCount(rs)
  {
    ReplayAppends(log, rs);
    ReplayAppends([], rs);
    AllAppendedLength(rs);
  }

  /** Replaying two sequences one after the other is replaying their concatenation. */
  lemma {:induction false} ReplayConcat(log: seq<LogEntry>, rs1: seq<Request>, rs2: seq<Request>)
    ensures Replay(log, rs1 + rs2) == Replay(Replay(log, rs1), rs2)
    decreases |rs1|
  {
    if |rs1| > 0 {
      assert (rs1 + rs2)[1..] == rs1[1..] + rs2;
      ReplayConcat(log + Appended(rs1[0]), rs1[1..], rs2);
    } else {
      assert rs1 + rs2 == rs2;
    }
  }

  /** The server: the log, and one method per endpoint. */
  class Backend {
    /** `logs`: every entry written since start-up, oldest first. */
    var logs: seq<LogEntry>

    constructor ()
      ensures logs == []
    {
      logs := [];
    }

    /** `POST /call`: ask the provider to call `phone` and speak the
        announcement for `agent`; log the call and answer its sid on success,
        answer 500 with the provider's message and log nothing on failure. */
    method PlaceCall(body: Form, from: string, outcome: ProviderOutcome, time: Timestamp)
      returns (sent: ProviderRequest, resp: HttpResponse)
      modifies this
      ensures sent == CreateCall(Get(body, "phone"), from, CallTwiml(Get(body, "agent")))
      ensures outcome.Success? ==>
        && logs == old(logs) + [CallEntry(Get(body, "phone"), Get(body, "agent"), outcome.sid, time)]
        && resp == Json(200, Succeeded(outcome.sid))
      ensures outcome.Failure? ==>
        logs == old(logs) && resp == Json(500, Errored(outcome.message))
    {
      var phone, agent := Get(body, "phone"), Get(body, "agent");
      sent := CreateCall(phone, from, CallTwiml(agent));
      match outcome
      case Success(sid) =>
        logs := logs + [CallEntry(phone, agent, sid, time)];
        resp := Json(200, Succeeded(sid));
      case Failure(message) =>
        resp := Json(500, Errored(message));
    }

    /** `POST /sms/send`: ask the provider to text `message` to `phone`; log
        the message and answer its sid on success, answer 500 with the
        provider's message and log nothing on failure. */
    method SendSms(body: Form, from: string, outcome: ProviderOutcome, time: Timestamp)
      returns (sent: ProviderRequest, resp: HttpResponse)
      modifies this
      ensures sent == CreateMessage(Get(body, "phone"), from, Get(body, "message"))
      ensures outcome.Success? ==>
        && logs == old(logs) + [SmsEntry(Get(body, "phone"), Get(body, "agent"), Get(body, "message"), outcome.sid, time)]
        && resp == Json(200, Succeeded(outcome.sid))
      ensures outcome.Failure? ==>
        logs == old(logs) && resp == Json(500, Errored(outcome.message))
    {
      var phone, message, agent := Get(body, "phone"), Get(body, "message"), Get(body, "agent");
      sent := CreateMessage(phone, from, message);
      match outcome
      case Success(sid) =>
        logs := logs + [SmsEntry(phone, agent, message, sid, time)];
        resp := Json(200, Succeeded(sid));
      case Failure(err) =>
        resp := Json(500, Errored(err));
    }

    /** `POST /sms/receive`: log the inbound message and answer the fixed acknowledgement. */
    method ReceiveSms(body: Form, time: Timestamp) returns (resp: HttpResponse)
      modifies this
      ensures logs == old(logs) + [InboundSmsEntry(Get(body, "From"), Get(body, "To"), Get(body, "Body"), time)]
      ensures resp == Xml(SmsAcknowledgement)
    {
      logs := logs + [InboundSmsEntry(Get(body, "From"), Get(body, "To"), Get(body, "Body"), time)];
      resp := Xml(SmsAcknowledgement);
    }

    /** `POST /recording/completed`: log the recording and answer 200. */
    method RecordingCompleted(body: Form, time: Timestamp) returns (resp: HttpResponse)
      modifies this
      ensures logs == old(logs) + [RecordingEntry(Get(body, "CallSid"), Get(body, "RecordingUrl"), time)]
      ensures resp == StatusOnly(200)
    {
      logs := logs + [RecordingEntry(Get(body, "CallSid"), Get(body, "RecordingUrl"), time)];
      resp := StatusOnly(200);
    }

    /** Routing: hand the request to its endpoint. The log grows by exactly
        the request's entries; the voice endpoints leave it as it was. */
    method Handle(r: Request, env: Env) returns (resp: HttpResponse)
      modifies this
      ensures logs == old(logs) + Appended(r) == Replay(old(logs), [r])
      ensures old(logs) <= logs && |logs| <= |old(logs)| + 1
      ensures resp == Reply(r, env)
    {
      match r
      case PostCall(body, outcome, time) =>
        var _, reply := PlaceCall(body, env.twilioNumber, outcome, time);
        resp := reply;
      case PostSmsSend(body, outcome, time) =>
        var _, reply := SendSms(body, env.twilioNumber, outcome, time);
        resp := reply;
      case PostSmsReceive(body, time) =>
        resp := ReceiveSms(body, time);
      case PostVoiceIncoming(_) =>
        resp := Twiml(Voice.Incoming(env.forwardTo));
      case PostVoiceNext(body) =>
        resp := Twiml(Voice.Next(env.forwardTo, Get(body, "DialCallStatus")));
      case PostRecordingCompleted(body, time) =>
        resp := RecordingCompleted(body, time);
    }
  }
}
