/** What the router promises, proved about its specification. */
module Properties {
  import opened Wrappers
  import opened Text
  import opened Knowledge
  import opened Router

  // ---------------------------------------------------------------- name capture

  /** The first trigger that captures a name decides it, whatever the later ones say. */
  lemma {:induction false} FirstCaptureIsFirst(raw: string, n: string, triggers: seq<string>, i: nat)
    requires i < |triggers| && Captures(raw, n, triggers[i])
    requires forall j :: 0 <= j < i ==> !Captures(raw, n, triggers[j])
    ensures FirstCapture(raw, n, triggers) == Some(CaptureAt(raw, n, triggers[i]))
  {
    if i > 0 {
      var rest := triggers[1..];
      forall j | 0 <= j < i - 1
        ensures !Captures(raw, n, rest[j])
      {
        assert rest[j] == triggers[j + 1];
      }
      assert rest[i - 1] == triggers[i];
      FirstCaptureIsFirst(raw, n, rest, i - 1);
      assert !Captures(raw, n, triggers[0]);
    }
  }

  /** No name is captured iff every trigger is absent or leaves an empty remainder. */
  lemma {:induction false} FirstCaptureNone(raw: string, n: string, triggers: seq<string>)
    ensures FirstCapture(raw, n, triggers) == None <==>
      forall j :: 0 <= j < |triggers| ==> !Captures(raw, n, triggers[j])
  {
    if triggers != [] {
      var rest := triggers[1..];
      FirstCaptureNone(raw, n, rest);
      assert forall j :: 1 <= j < |triggers| ==> triggers[j] == rest[j - 1];
    }
  }

  /** A captured name comes from some trigger that captures it, all earlier
      triggers having failed; it is never empty. */
  lemma {:induction false} FirstCaptureSome(raw: string, n: string, triggers: seq<string>, name: string)
    returns (i: nat)
    requires FirstCapture(raw, n, triggers) == Some(name)
    ensures i < |triggers| && Captures(raw, n, triggers[i]) && CaptureAt(raw, n, triggers[i]) == name
    ensures name != ""
    ensures forall j :: 0 <= j < i ==> !Captures(raw, n, triggers[j])
  {
    if Captures(raw, n, triggers[0]) {
      i := 0;
    } else {
      var rest := triggers[1..];
      var k := FirstCaptureSome(raw, n, rest, name);
      i := k + 1;
      assert forall j :: 1 <= j < i ==> triggers[j] == rest[j - 1];
    }
  }

  /** Lower-casing commutes with slicing. */
  lemma {:induction false} LowerSlice(s: string, i: nat, j: nat)
    requires i <= j <= |s|
    ensures Lower(s[i..j]) == Lower(s)[i..j]
  {
    var a, b := Lower(s[i..j]), Lower(s)[i..j];
    assert |a| == |b|;
    forall k | 0 <= k < |a|
      ensures a[k] == b[k]
    {
      assert s[i..j][k] == s[i + k];
    }
  }

  /** Without leading whitespace, `Strip` keeps a prefix. */
  lemma {:induction false} StripKeepsStart(raw: string)
    requires raw == [] || !IsSpace(raw[0])
    ensures |Strip(raw)| <= |raw| && Strip(raw) == raw[..|Strip(raw)|]
  {
    StripIsInfix(raw);
    assert LeadingSpace(raw) == 0;
  }

  /** An occurrence of `t` in the lower-cased prefix `p` of `raw` is a
      case-insensitive occurrence of `t` in `raw` itself. */
  lemma {:induction false} OccursInPrefix(raw: string, p: string, t: string, i: nat)
    requires |p| <= |raw| && p == raw[..|p|]
    requires OccursAt(Lower(p), t, i)
    ensures i + |t| <= |raw| && Lower(raw[i..i + |t|]) == t
  {
    LowerSlice(p, i, i + |t|);
    assert p[i..i + |t|] == raw[i..i + |t|];
  }

  /** Once the end of the first occurrence of `t` in `n` falls inside the
      raw input, the captured name is the stripped, title-cased `rest` of
      the raw input from there on. */
  lemma {:induction false} CaptureIsRest(raw: string, n: string, t: string, rest: string)
    requires Contains(n, t) && Find(n, t) + |t| <= |raw|
    requires rest == raw[Find(n, t) + |t|..]
    ensures CaptureAt(raw, n, t) == Title(Strip(rest))
  {
  }

  /** For input that does not start with whitespace, the first occurrence of
      the trigger in the normalised input is a case-insensitive occurrence in
      the raw input at the same offset. */
  lemma {:induction false} TriggerInRaw(raw: string, t: string)
    requires raw == [] || !IsSpace(raw[0])
    requires Contains(Normalize(raw), t)
    ensures Find(Normalize(raw), t) + |t| <= |raw|
    ensures Lower(raw[Find(Normalize(raw), t)..Find(Normalize(raw), t) + |t|]) == t
  {
    StripKeepsStart(raw);
    FindSpec(Normalize(raw), t);
    OccursInPrefix(raw, Strip(raw), t, Find(Normalize(raw), t));
  }

  /** For an input that does not start with whitespace, the captured name is
      the stripped, title-cased rest of the raw input after the first
      (case-insensitive) occurrence of the trigger. */
  lemma {:induction false} NameFollowsTrigger(raw: string, t: string)
    requires raw == [] || !IsSpace(raw[0])
    requires Contains(Normalize(raw), t)
    ensures var i := Find(Normalize(raw), t);
      0 <= i && i + |t| <= |raw| &&
      Lower(raw[i..i + |t|]) == t &&
      CaptureAt(raw, Normalize(raw), t) == Title(Strip(raw[i + |t|..]))
  {
    var i := Find(Normalize(raw), t);
    TriggerInRaw(raw, t);
    CaptureIsRest(raw, Normalize(raw), t, raw[i + |t|..]);
  }

  /** The whitespace that `Strip` removes in front does not change it. */
  lemma {:induction false} StripAfterSpace(ws: string, body: string)
    requires forall k :: 0 <= k < |ws| ==> IsSpace(ws[k])
    ensures Strip(ws + body) == Strip(body)
  {
    LeadingSpaceAfterSpace(ws, body);
  }

  lemma {:induction false} LeadingSpaceAfterSpace(ws: string, body: string)
    requires forall k :: 0 <= k < |ws| ==> IsSpace(ws[k])
    ensures LeadingSpace(ws + body) == |ws| + LeadingSpace(body)
    ensures (ws + body)[LeadingSpace(ws + body)..] == body[LeadingSpace(body)..]
  {
    var x := ws + body;
    if ws == [] {
      assert x == body;
    } else {
      assert x[0] == ws[0] && x[1..] == ws[1..] + body;
      LeadingSpaceAfterSpace(ws[1..], body);
      assert LeadingSpace(x) == 1 + LeadingSpace(x[1..]);
      assert x[LeadingSpace(x)..] == x[1..][LeadingSpace(x[1..])..];
    }
  }

  /** Whatever precedes `body`, the capture slice lands `|ws|` characters
      earlier in `body` than the end of the trigger occurrence in `n`. */
  lemma {:induction false} CaptureAfterPrefix(ws: string, body: string, n: string, t: string)
    requires Contains(n, t) && Find(n, t) + |t| <= |body|
    requires |ws| <= Find(n, t) + |t|
    ensures CaptureAt(ws + body, n, t) == Title(Strip(body[Find(n, t) + |t| - |ws|..]))
  {
    var k := Find(n, t) + |t|;
    DropAfterPrefix(ws, body, k);
    CaptureIsRest(ws + body, n, t, body[k - |ws|..]);
  }

  /** Whitespace in front of the input shifts the slice: with `lead` such
      characters before `body`, the captured name starts `lead` characters
      before the end of the trigger (" i am jo" captures "M Jo", not "Jo"). */
  lemma {:induction false} LeadingSpaceShiftsName(ws: string, body: string, t: string)
    requires forall k :: 0 <= k < |ws| ==> IsSpace(ws[k])
    requires body == [] || !IsSpace(body[0])
    requires Contains(Normalize(body), t)
    requires |ws| <= Find(Normalize(body), t) + |t|
    ensures Normalize(ws + body) == Normalize(body)
    ensures Find(Normalize(body), t) + |t| <= |body|
    ensures CaptureAt(ws + body, Normalize(body), t) ==
      Title(Strip(body[Find(Normalize(body), t) + |t| - |ws|..]))
  {
    StripAfterSpace(ws, body);
    TriggerInRaw(body, t);
    CaptureAfterPrefix(ws, body, Normalize(body), t);
  }

  /** When the leading whitespace reaches past the end of the trigger, the
      slice starts inside that whitespace and the name swallows the trigger:
      five spaces and then "i am jo" capture "I Am Jo". */
  lemma {:induction false} LeadingSpaceSwallowsTrigger(ws: string, body: string, t: string)
    requires forall k :: 0 <= k < |ws| ==> IsSpace(ws[k])
    requires Contains(Normalize(body), t)
    requires Find(Normalize(body), t) + |t| <= |ws|
    ensures Normalize(ws + body) == Normalize(body)
    ensures CaptureAt(ws + body, Normalize(body), t) == Title(Strip(body))
  {
    var k := Find(Normalize(body), t) + |t|;
    StripAfterSpace(ws, body);
    assert (ws + body)[k..] == ws[k..] + body;
    StripAfterSpace(ws[k..], body);
  }

  lemma {:induction false} DropAfterPrefix(ws: string, body: string, k: nat)
    requires |ws| <= k <= |ws| + |body|
    ensures (ws + body)[k..] == body[k - |ws|..]
  {
  }
}
