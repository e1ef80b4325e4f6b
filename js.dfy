/** The small part of JavaScript's value semantics that the handlers rely on:
    request fields that may be `undefined`, truthiness of a string, template
    interpolation of a field, array indexing past the end, and
    `String.prototype.split` with a one-character separator. */
module Js {

  datatype Option<T> = None | Some(value: T)

  /** A value read from a request body: a string, or `undefined` when the field is absent. */
  type Field = Option<string>

  /** A parsed request body (JSON or URL-encoded form), field name to value. */
  type Form = map<string, string>

  /** `req.body.key`: the field's value, or `undefined`. */
  function Get(form: Form, key: string): (f: Field)
  {
    if key in form then Some(form[key]) else None
  }

  /** JavaScript truthiness of a string-or-undefined: `undefined` and `""` are false. */
  predicate Truthy(f: Field)
  {
    f.Some? && f.value != ""
  }

  /** What a template literal `${f}` interpolates: the string itself, or "undefined". */
  function Interpolate(f: Field): (text: string)
  {
    match f
    case None => "undefined"
    case Some(s) => s
  }

  /** `xs[i]` on a JavaScript array of strings: `undefined` outside the array. */
  function At(xs: seq<string>, i: int): (f: Field)
    ensures f.Some? <==> 0 <= i < |xs|
    ensures f.Some? ==> f.value == xs[i]
  {
    if 0 <= i < |xs| then Some(xs[i]) else None
  }

  /** Number of occurrences of `c` in `s`. */
  function Count(s: string, c: char): (n: nat)
  {
    if |s| == 0 then 0 else (if s[0] == c then 1 else 0) + Count(s[1..], c)
  }

  /** Position of the first `c` in `s`, or `|s|` when there is none. */
  function IndexOf(s: string, c: char): (i: nat)
    ensures i <= |s|
    ensures i < |s| ==> s[i] == c
    ensures forall k :: 0 <= k < i ==> s[k] != c
  {
    if |s| == 0 then 0 else if s[0] == c then 0 else 1 + IndexOf(s[1..], c)
  }

  /** `s.split(sep)` for a one-character separator: the maximal pieces of `s`
      between separators, in order, including empty pieces at either end. */
  function Split(s: string, sep: char): (parts: seq<string>)
    ensures |parts| >= 1
    ensures forall k :: 0 <= k < |parts| ==> sep !in parts[k]
  {
    if |s| == 0 then [""]
    else
      var rest := Split(s[1..], sep);
      if s[0] == sep then [""] + rest
      else [[s[0]] + rest[0]] + rest[1..]
  }

  /** `parts.join(sep)`. */
  function Join(parts: seq<string>, sep: char): (s: string)
    requires |parts| >= 1
  {
    if |parts| == 1 then parts[0] else parts[0] + [sep] + Join(parts[1..], sep)
  }

  /** Splitting gives one piece more than there are separators. */
  lemma {:induction false} SplitCount(s: string, sep: char)
    ensures |Split(s, sep)| == Count(s, sep) + 1
  {
    if |s| > 0 {
      SplitCount(s[1..], sep);
    }
  }

  /** Prepending a character to the first piece prepends it to the joined string. */
  lemma JoinConsHead(c: char, parts: seq<string>, sep: char)
    requires |parts| >= 1
    ensures Join([[c] + parts[0]] + parts[1..], sep) == [c] + Join(parts, sep)
  {
    var q := [[c] + parts[0]] + parts[1..];
    if |parts| > 1 {
      assert q[1..] == parts[1..];
    }
  }

  /** Rejoining the pieces with the separator gives back the original string. */
  lemma {:induction false} JoinSplit(s: string, sep: char)
    ensures Join(Split(s, sep), sep) == s
  {
    if |s| > 0 {
      var rest := Split(s[1..], sep);
      JoinSplit(s[1..], sep);
      if s[0] == sep {
        assert ([""] + rest)[1..] == rest;
      } else {
        JoinConsHead(s[0], rest, sep);
      }
    }
  }

  /** Splitting peels off the text before the first separator, then splits the rest. */
  lemma {:induction false} SplitAtFirst(s: string, sep: char)
    ensures var i := IndexOf(s, sep);
      Split(s, sep) == if i == |s| then [s] else [s[..i]] + Split(s[i + 1..], sep)
  {
    if |s| > 0 && s[0] != sep {
      var t := s[1..];
      var j := IndexOf(t, sep);
      SplitAtFirst(t, sep);
      var rest := Split(t, sep);
      if j == |t| {
        assert [s[0]] + t == s;
      } else {
        assert [s[0]] + t[..j] == s[..j + 1];
        assert t[j + 1..] == s[j + 2..];
        assert rest[1..] == Split(s[j + 2..], sep);
      }
    } else if |s| > 0 {
      assert s[..0] == "" && s[1..] == s[0 + 1..];
    }
  }

  /** The first separator of `p + [sep] + t` is the one after `p` when `p` has none. */
  lemma IndexOfAfterPlain(p: string, t: string, sep: char)
    requires sep !in p
    ensures IndexOf(p + [sep] + t, sep) == |p|
  {
    var s := p + [sep] + t;
    var i := IndexOf(s, sep);
    assert s[|p|] == sep;
  }

  /** Splitting a joined list of separator-free pieces gives back the pieces. */
  lemma {:induction false} SplitJoin(parts: seq<string>, sep: char)
    requires |parts| >= 1
    requires forall k :: 0 <= k < |parts| ==> sep !in parts[k]
    ensures Split(Join(parts, sep), sep) == parts
  {
    var p := parts[0];
    if |parts| == 1 {
      SplitAtFirst(p, sep);
    } else {
      var t := Join(parts[1..], sep);
      var s := p + [sep] + t;
      IndexOfAfterPlain(p, t, sep);
      SplitAtFirst(s, sep);
      assert s[..|p|] == p;
      assert s[|p| + 1..] == t;
      SplitJoin(parts[1..], sep);
    }
  }
}
