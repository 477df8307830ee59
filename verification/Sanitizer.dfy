/** Terminal text on its way to a reader: control sequences and controls are stripped, the rest is
    cut to the requested lines and the output limit.
 */
module Sanitizer {
  import opened Messages
  import opened Text

  const MaxTextBytes := 65536

  const Escape := 0x1B
  const Newline := 10
  const Tab := 9

  /******* The stripping automaton *******/

  datatype State = Plain | Escaped | Csi | ControlString | StringEscape

  // The state after one rune.
  function Next(s: State, r: int): State {
    match s
    case Escaped =>
      if r == '[' as int then Csi
      else if r in {']' as int, 'P' as int, 'X' as int, '^' as int, '_' as int} then ControlString
      else if 0x30 <= r <= 0x7E then Plain
      else Escaped
    case Csi => if 0x40 <= r <= 0x7E then Plain else Csi
    case ControlString => if r == 0x07 || r == 0x9C then Plain else if r == Escape then StringEscape else ControlString
    case StringEscape =>
      if r == '\\' as int || r == 0x9C || r == 0x07 then Plain
      else if r != Escape then ControlString
      else StringEscape
    case Plain =>
      if r == Escape then Escaped
      else if r == 0x9B then Csi
      else if r in {0x90, 0x98, 0x9D, 0x9E, 0x9F} then ControlString
      else Plain
  }

  // A rune that is shown in this state.
  predicate Shown(s: State, r: int) {
    && s.Plain? && Next(s, r).Plain?
    && !(r < 0x20 && r != Newline && r != Tab) && !(0x7F <= r <= 0x9F)
  }

  function Final(s: State, rs: seq<int>): State
    decreases |rs|
  {
    if rs == [] then s else Final(Next(s, rs[0]), rs[1..])
  }

  // The fully stripped text.
  function Strip(s: State, rs: seq<int>): seq<int>
    decreases |rs|
  {
    if rs == [] then []
    else (if Shown(s, rs[0]) then [rs[0]] else []) + Strip(Next(s, rs[0]), rs[1..])
  }

  // protocol.SanitizeAgentText: controls and bidirectional overrides go.
  predicate Hidden(r: int) {
    (Control(r) && r != Newline && r != Tab) || 0x202A <= r <= 0x202E || 0x2066 <= r <= 0x2069
  }

  function Sanitize(rs: seq<int>): seq<int> {
    if rs == [] then []
    else (if Hidden(rs[0]) then [] else [rs[0]]) + Sanitize(rs[1..])
  }

  /******* Limits *******/

  function Newlines(rs: seq<int>): nat {
    if rs == [] then 0 else (if rs[0] == Newline then 1 else 0) + Newlines(rs[1..])
  }

  // A text that fits: every rune starts within the first `lines` lines, and all bytes fit.
  predicate Fits(rs: seq<int>, lines: nat) {
    ByteLen(rs) <= MaxTextBytes && (rs != [] ==> Newlines(rs[..|rs| - 1]) < lines)
  }

  // The longest prefix that fits.
  predicate LongestFit(p: seq<int>, whole: seq<int>, lines: nat) {
    && p <= whole && Fits(p, lines)
    && (|p| < |whole| ==> !Fits(whole[..|p| + 1], lines))
  }

  lemma {:induction false} NewlinesAppend(a: seq<int>, b: seq<int>)
    ensures Newlines(a + b) == Newlines(a) + Newlines(b)
  {
    if a == [] {
      assert a + b == b;
    } else {
      assert (a + b)[1..] == a[1..] + b;
      NewlinesAppend(a[1..], b);
    }
  }

  // Shorter prefixes of a fitting text fit, so nothing longer than the longest fit fits either.
  lemma FitsIsDownward(rs: seq<int>, k: nat, lines: nat)
    requires k <= |rs| && Fits(rs, lines)
    ensures Fits(rs[..k], lines)
  {
    assert rs == rs[..k] + rs[k..];
    ByteLenAppend(rs[..k], rs[k..]);
    if 0 < k < |rs| {
      assert rs[..|rs| - 1] == rs[..k - 1] + rs[k - 1..|rs| - 1];
      assert rs[..k][..k - 1] == rs[..k - 1];
      NewlinesAppend(rs[..k - 1], rs[k - 1..|rs| - 1]);
    } else if k == |rs| {
      assert rs[..k] == rs;
    }
  }

  /** There is one longest fitting prefix, and every fitting prefix is part of it. */
  lemma LongestFitIsMaximal(p: seq<int>, q: seq<int>, whole: seq<int>, lines: nat)
    requires LongestFit(p, whole, lines) && q <= whole && Fits(q, lines)
    ensures q <= p
  {
    if |q| > |p| {
      assert q[..|p| + 1] == whole[..|p| + 1];
      FitsIsDownward(q, |p| + 1, lines);
    }
  }

  /******* The loop *******/

  lemma {:induction false} StripAppend(s: State, a: seq<int>, b: seq<int>)
    ensures Strip(s, a + b) == Strip(s, a) + Strip(Final(s, a), b)
    ensures Final(s, a + b) == Final(Final(s, a), b)
    decreases |a|
  {
    hide Next, Shown;
    if a == [] {
      assert a + b == b;
      assert Strip(s, a) + Strip(s, b) == Strip(s, b);
    } else {
      assert (a + b)[1..] == a[1..] + b;
      StripAppend(Next(s, a[0]), a[1..], b);
      var head := if Shown(s, a[0]) then [a[0]] else [];
      assert head + (Strip(Next(s, a[0]), a[1..]) + Strip(Final(s, a), b)) ==
             head + Strip(Next(s, a[0]), a[1..]) + Strip(Final(s, a), b);
    }
  }

  lemma StripNext(rs: seq<int>, i: nat)
    requires i < |rs|
    ensures Final(Plain, rs[..i + 1]) == Next(Final(Plain, rs[..i]), rs[i])
    ensures Strip(Plain, rs[..i + 1]) == Strip(Plain, rs[..i]) +
            if Shown(Final(Plain, rs[..i]), rs[i]) then [rs[i]]
            else []
  {
    assert rs[..i + 1] == rs[..i] + [rs[i]];
    StripAppend(Plain, rs[..i], [rs[i]]);
    assert [rs[i]][1..] == [];
    var s := Final(Plain, rs[..i]);
    assert Strip(s, [rs[i]]) == (if Shown(s, rs[i]) then [rs[i]] else []) + [];
  }

  /** boundedAgentText: the result is the sanitised longest prefix of the fully stripped text that
      fits, and `shortened` tells exactly whether something was cut. */
  method BoundedText(rs: seq<int>, lines: nat) returns (text: seq<int>, shortened: bool)
    requires ScalarValues(rs) && lines >= 1
    ensures exists prefix :: LongestFit(prefix, Strip(Plain, rs), lines) && text == Sanitize(prefix)
              && (shortened <==> prefix != Strip(Plain, rs))
    ensures AcceptedText(text) && LineCount(text) <= lines
  {
    var out: seq<int>, size, line, state := [], 0, 1, Plain;
    shortened := false;
    for i := 0 to |rs|
      invariant state == Final(Plain, rs[..i]) && out == Strip(Plain, rs[..i])
      invariant size == ByteLen(out) && line == 1 + Newlines(out)
      invariant Fits(out, lines)
    {
      var r := rs[i];
      StripNext(rs, i);
      var shown := Shown(state, r);
      state := Next(state, r);
      if !shown {
        continue;
      }
      assert (out + [r])[..|out|] == out;
      ByteLenAppend(out, [r]);
      NewlinesAppend(out, [r]);
      assert ByteLen([r]) == RuneLen(r) && Newlines([r]) == if r == Newline then 1 else 0;
      if line > lines || size + RuneLen(r) > MaxTextBytes {
        StoppedAt(rs, i, out, lines);
        StrippedAreScalars(Plain, rs);
        ResultIsAccepted(Strip(Plain, rs), out, lines);
        return Sanitize(out), true;
      }
      out, size := out + [r], size + RuneLen(r);
      if r == Newline {
        line := line + 1;
      }
    }
    assert rs[..|rs|] == rs;
    StrippedAreScalars(Plain, rs);
    assert LongestFit(out, Strip(Plain, rs), lines);
    ResultIsAccepted(Strip(Plain, rs), out, lines);
    text := Sanitize(out);
  }

  // The rune that does not fit ends the longest prefix.
  lemma StoppedAt(rs: seq<int>, i: nat, out: seq<int>, lines: nat)
    requires i < |rs| && out == Strip(Plain, rs[..i]) && Shown(Final(Plain, rs[..i]), rs[i])
    requires Fits(out, lines) && !Fits(out + [rs[i]], lines)
    ensures LongestFit(out, Strip(Plain, rs), lines) && out != Strip(Plain, rs)
  {
    hide Strip, Final, Shown, Fits;
    StripNext(rs, i);
    assert rs == rs[..i + 1] + rs[i + 1..];
    StripAppend(Plain, rs[..i + 1], rs[i + 1..]);
    CutHere(out, rs[i], Strip(Final(Plain, rs[..i + 1]), rs[i + 1..]), lines);
  }

  lemma CutHere(out: seq<int>, r: int, more: seq<int>, lines: nat)
    requires Fits(out, lines) && !Fits(out + [r], lines)
    ensures LongestFit(out, out + [r] + more, lines) && out != out + [r] + more
  {
    hide Fits;
    var whole := out + [r] + more;
    assert out == whole[..|out|];
    assert whole[..|out| + 1] == out + [r];
    assert |whole| > |out|;
  }

  /******* What the reader can rely on *******/

  lemma {:induction false} SanitizedIsClean(rs: seq<int>)
    ensures forall i | 0 <= i < |Sanitize(rs)| :: !Hidden(Sanitize(rs)[i]) && Sanitize(rs)[i] in rs
    ensures ByteLen(Sanitize(rs)) <= ByteLen(rs)
    ensures Newlines(Sanitize(rs)) == Newlines(rs)
  {
    if rs != [] {
      SanitizedIsClean(rs[1..]);
      if !Hidden(rs[0]) {
        assert Sanitize(rs)[1..] == Sanitize(rs[1..]);
      } else {
        assert Sanitize(rs) == Sanitize(rs[1..]);
      }
    }
  }

  lemma {:induction false} CleanIsUnchanged(rs: seq<int>)
    requires forall i | 0 <= i < |rs| :: !Hidden(rs[i])
    ensures Sanitize(rs) == rs
  {
    if rs != [] {
      CleanIsUnchanged(rs[1..]);
      assert [rs[0]] + rs[1..] == rs;
    }
  }

  // The text checks of ValidateAgentQueryResult
  predicate AcceptedText(text: seq<int>) {
    && ScalarValues(text)
    && |Encode(text)| <= MaxTextBytes
    && Runes(Encode(text)) == Some(text)
    && Sanitize(text) == text
  }

  // meshmcp's line count: a last line without newline counts too.
  function LineCount(text: seq<int>): nat {
    Newlines(text) + if text != [] && text[|text| - 1] != Newline then 1 else 0
  }

  // A fitting text has at most `lines` lines.
  lemma FittingLines(prefix: seq<int>, lines: nat)
    requires Fits(prefix, lines) && lines >= 1
    ensures Newlines(prefix) <= lines
    ensures Newlines(prefix) == lines && prefix != [] ==> prefix[|prefix| - 1] == Newline
  {
    if prefix != [] {
      var last := prefix[|prefix| - 1];
      assert prefix == prefix[..|prefix| - 1] + [last];
      NewlinesAppend(prefix[..|prefix| - 1], [last]);
      assert Newlines([last]) == if last == Newline then 1 else 0;
    }
  }

  // Sanitising keeps a final newline final.
  lemma NewlineStaysLast(prefix: seq<int>)
    requires prefix != [] && prefix[|prefix| - 1] == Newline
    ensures Sanitize(prefix) != [] && Sanitize(prefix)[|Sanitize(prefix)| - 1] == Newline
  {
    var head := prefix[..|prefix| - 1];
    assert prefix == head + [Newline];
    SanitizeAppend(head, [Newline]);
    assert Sanitize([Newline]) == [Newline] + [];
  }

  /** Whatever was read, the result passes the result validator's text checks and the reader's line
      check. */
  lemma ResultIsAccepted(whole: seq<int>, prefix: seq<int>, lines: nat)
    requires ScalarValues(whole) && lines >= 1 && LongestFit(prefix, whole, lines)
    ensures AcceptedText(Sanitize(prefix))
    ensures LineCount(Sanitize(prefix)) <= lines
  {
    var text := Sanitize(prefix);
    SanitizedIsClean(prefix);
    CleanIsUnchanged(text);
    FittingLines(prefix, lines);
    if prefix != [] && prefix[|prefix| - 1] == Newline { NewlineStaysLast(prefix); }
    hide Sanitize, Newlines, Runes, Encode, Hidden;
    forall i | 0 <= i < |text| ensures ScalarValue(text[i]) {
      var k :| 0 <= k < |prefix| && prefix[k] == text[i];
      assert whole[k] == prefix[k];
    }
    EncodeRoundTrip(text);
  }

  lemma {:induction false} SanitizeAppend(a: seq<int>, b: seq<int>)
    ensures Sanitize(a + b) == Sanitize(a) + Sanitize(b)
  {
    if a == [] {
      assert a + b == b;
      assert Sanitize(a) + Sanitize(b) == Sanitize(b);
    } else {
      assert (a + b)[1..] == a[1..] + b;
      SanitizeAppend(a[1..], b);
      var head := if Hidden(a[0]) then [] else [a[0]];
      assert head + (Sanitize(a[1..]) + Sanitize(b)) == head + Sanitize(a[1..]) + Sanitize(b);
    }
  }

  lemma {:induction false} StrippedAreScalars(s: State, rs: seq<int>)
    requires ScalarValues(rs)
    ensures ScalarValues(Strip(s, rs))
    decreases |rs|
  {
    if rs != [] { StrippedAreScalars(Next(s, rs[0]), rs[1..]); }
  }

  // What stripping leaves: line breaks, tabs, and no other control in either range.
  lemma {:induction false} StrippedIsPlain(s: State, rs: seq<int>)
    ensures forall i | 0 <= i < |Strip(s, rs)| ::
              var r := Strip(s, rs)[i];
              r == 0x09 || r == 0x0A || (0x20 <= r && !(0x7F <= r <= 0x9F))
    decreases |rs|
  {
    if rs != [] { StrippedIsPlain(Next(s, rs[0]), rs[1..]); }
  }

  /** Stripping leaves a text alone exactly if it has no control but line breaks and tabs, C0 or C1,
      and no DEL. */
  lemma {:induction false} PlainIsUnchanged(rs: seq<int>)
    ensures Strip(Plain, rs) == rs <==>
            forall i | 0 <= i < |rs| :: rs[i] == 0x09 || rs[i] == 0x0A || (0x20 <= rs[i] && !(0x7F <= rs[i] <= 0x9F))
    decreases |rs|
  {
    StrippedIsPlain(Plain, rs);
    if rs != [] && forall i | 0 <= i < |rs| ::
                     rs[i] == 0x09 || rs[i] == 0x0A || (0x20 <= rs[i] && !(0x7F <= rs[i] <= 0x9F)) {
      assert forall i | 0 <= i < |rs| - 1 :: rs[1..][i] == rs[i + 1];
      PlainIsUnchanged(rs[1..]);
      assert Shown(Plain, rs[0]) && Next(Plain, rs[0]).Plain?;
      assert [rs[0]] + rs[1..] == rs;
    }
  }

  /** Sanitising leaves a text alone, and so the validator accepts it, exactly if it has no such
      control and none of the bidirectional embeddings, overrides and isolates. */
  lemma HarmlessIsUnchanged(rs: seq<int>)
    requires ScalarValues(rs)
    ensures Sanitize(rs) == rs <==>
            forall i | 0 <= i < |rs| ::
              && (rs[i] == 0x09 || rs[i] == 0x0A || (0x20 <= rs[i] && !(0x7F <= rs[i] <= 0x9F)))
              && !(0x202A <= rs[i] <= 0x202E) && !(0x2066 <= rs[i] <= 0x2069)
  {
    SanitizedIsClean(rs);
    if forall i | 0 <= i < |rs| :: !Hidden(rs[i]) { CleanIsUnchanged(rs); }
    forall i | 0 <= i < |rs|
      ensures !Hidden(rs[i]) <==>
              && (rs[i] == 0x09 || rs[i] == 0x0A || (0x20 <= rs[i] && !(0x7F <= rs[i] <= 0x9F)))
              && !(0x202A <= rs[i] <= 0x202E) && !(0x2066 <= rs[i] <= 0x2069)
    {
      assert ScalarValue(rs[i]);
    }
  }

  /******* Control sequences are invisible *******/

  // A complete sequence: it leaves nothing behind, neither text nor state.
  predicate Complete(c: seq<int>) {
    Final(Plain, c).Plain? && Strip(Plain, c) == []
  }

  /** A complete control sequence inserted where plain text is expected changes nothing. */
  lemma ControlsAreInvisible(a: seq<int>, c: seq<int>, b: seq<int>)
    requires Final(Plain, a).Plain? && Complete(c)
    ensures Strip(Plain, a + c + b) == Strip(Plain, a + b)
  {
    StripAppend(Plain, a + c, b);
    StripAppend(Plain, a, c);
    StripAppend(Plain, a, b);
    assert Strip(Plain, a) + [] == Strip(Plain, a);
  }

  // Runes that keep the automaton where it is.
  lemma {:induction false} Staying(s: State, rs: seq<int>)
    requires !s.Plain? && forall i | 0 <= i < |rs| :: Next(s, rs[i]) == s
    ensures Final(s, rs) == s && Strip(s, rs) == []
    decreases |rs|
  {
    if rs != [] { Staying(s, rs[1..]); }
  }

  lemma OneStep(s: State, r: int)
    ensures Final(s, [r]) == Next(s, r) && Strip(s, [r]) == if Shown(s, r) then [r] else []
  {
    assert [r][1..] == [];
  }

  // Opening runes, a body that keeps the state, and a final rune.
  lemma Sequence(open: seq<int>, s: State, body: seq<int>, last: int)
    requires Final(Plain, open) == s && !s.Plain? && Strip(Plain, open) == []
    requires (forall i | 0 <= i < |body| :: Next(s, body[i]) == s) && Next(s, last).Plain?
    ensures Complete(open + body + [last])
  {
    StripAppend(Plain, open + body, [last]);
    StripAppend(Plain, open, body);
    Staying(s, body);
    OneStep(s, last);
  }

  // Two runes from plain state.
  lemma Opening(a: int, b: int)
    requires !Next(Plain, a).Plain?
    ensures Final(Plain, [a, b]) == Next(Next(Plain, a), b) && Strip(Plain, [a, b]) == []
  {
    assert [a, b] == [a] + [b];
    StripAppend(Plain, [a], [b]);
    OneStep(Plain, a);
    OneStep(Next(Plain, a), b);
  }

  /** The control sequences of section 5.4 of ECMA-48, introduced by ESC [ or by CSI: parameter and
      intermediate bytes, or whatever else is no final byte, then a final byte. */
  lemma ControlSequencesAreComplete(parameters: seq<int>, last: int)
    requires (forall i | 0 <= i < |parameters| :: !(0x40 <= parameters[i] <= 0x7E)) && 0x40 <= last <= 0x7E
    ensures Complete([Escape, '[' as int] + parameters + [last])
    ensures Complete([0x9B] + parameters + [last])
  {
    Opening(Escape, '[' as int);
    Sequence([Escape, '[' as int], Csi, parameters, last);
    OneStep(Plain, 0x9B);
    Sequence([0x9B], Csi, parameters, last);
  }

  // A string that nothing ends: no BEL, no ST in its one-character form, and no ESC followed by a
  // backslash.  Other characters after ESC are part of the string.
  predicate Unterminated(body: seq<int>) {
    forall i | 0 <= i < |body| ::
      body[i] !in {0x07, 0x9C} && (i > 0 && body[i - 1] == Escape ==> body[i] != '\\' as int)
  }

  // Where the automaton is after such a string.
  function InString(body: seq<int>): State {
    if body != [] && body[|body| - 1] == Escape then StringEscape else ControlString
  }

  // One more character: the string goes on or ends here.
  lemma LastInString(body: seq<int>)
    requires body != [] && Unterminated(body[..|body| - 1])
    ensures var next := Next(InString(body[..|body| - 1]), body[|body| - 1]);
            if Unterminated(body) then next == InString(body) else next.Plain?
  {
    var before := body[..|body| - 1];
    if before != [] { assert before[|before| - 1] == body[|body| - 2]; }
  }

  lemma {:induction false} StaysInString(body: seq<int>)
    requires Unterminated(body)
    ensures Final(ControlString, body) == InString(body) && Strip(ControlString, body) == []
    decreases |body|
  {
    hide Next;
    if body != [] {
      var before, last := body[..|body| - 1], body[|body| - 1];
      LastInString(body);
      StaysInString(before);
      assert body == before + [last];
      StripAppend(ControlString, before, [last]);
      OneStep(InString(before), last);
    }
  }

  /** The string goes on exactly as long as nothing has ended it. */
  lemma {:induction false} StringEndsExactly(body: seq<int>)
    ensures Unterminated(body) <==>
            forall k | 0 <= k <= |body| :: Final(ControlString, body[..k]) in {ControlString, StringEscape}
    decreases |body|
  {
    hide Next;
    if body == [] {
      assert body[..0] == [];
    } else {
      var before, last := body[..|body| - 1], body[|body| - 1];
      StringEndsExactly(before);
      assert forall k | 0 <= k < |body| :: before[..k] == body[..k];
      assert body[..|body|] == body == before + [last];
      if Unterminated(before) {
        StaysInString(before);
        StripAppend(ControlString, before, [last]);
        OneStep(InString(before), last);
        LastInString(body);
      }
    }
  }

  // Any of the string's ends, after any opening of a string.
  lemma StringIsComplete(open: seq<int>, body: seq<int>)
    requires Final(Plain, open).ControlString? && Strip(Plain, open) == [] && Unterminated(body)
    ensures Complete(open + body + [0x07])
    ensures Complete(open + body + [0x9C])
    ensures Complete(open + body + [Escape, '\\' as int])
  {
    var s := InString(body);
    StripAppend(Plain, open, body);
    StaysInString(body);
    StripAppend(Plain, open + body, [0x07]);
    StripAppend(Plain, open + body, [0x9C]);
    StripAppend(Plain, open + body, [Escape]);
    OneStep(s, 0x07);
    OneStep(s, 0x9C);
    OneStep(s, Escape);
    StripAppend(Plain, open + body + [Escape], ['\\' as int]);
    OneStep(StringEscape, '\\' as int);
    assert open + body + [Escape, '\\' as int] == open + body + [Escape] + ['\\' as int];
  }

  /** The control strings of section 5.6 of ECMA-48 (DCS, SOS, OSC, PM, APC), introduced in either
      form, with any body that does not end them, and ended by ST in either form or by BEL. */
  lemma ControlStringsAreComplete(introducer: int, c1: int, body: seq<int>)
    requires introducer in {']' as int, 'P' as int, 'X' as int, '^' as int, '_' as int}
    requires c1 in {0x90, 0x98, 0x9D, 0x9E, 0x9F} && Unterminated(body)
    ensures Complete([Escape, introducer] + body + [0x07])
    ensures Complete([Escape, introducer] + body + [0x9C])
    ensures Complete([Escape, introducer] + body + [Escape, '\\' as int])
    ensures Complete([c1] + body + [0x07])
    ensures Complete([c1] + body + [0x9C])
    ensures Complete([c1] + body + [Escape, '\\' as int])
  {
    Opening(Escape, introducer);
    StringIsComplete([Escape, introducer], body);
    OneStep(Plain, c1);
    StringIsComplete([c1], body);
  }
}
