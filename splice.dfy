/**
 * What ChatWatcher.HandleAlert computes for one alert over one payload list,
 * stated as functions on values, and the properties of that rewrite.
 */
module Splice {
  import opened Wrappers
  import opened Chat
  import opened Matching

  /** The highlight settings of an alert: Highlight, HighlightForeground, HighlightGlow. */
  datatype Style = Style(highlight: bool, foreground: u16, glow: u16)

  /** The payloads that open a highlight: a colour is only switched when its key is not 0. */
  function Open(s: Style): seq<Payload>
  {
    (if s.foreground != 0 then [Foreground(s.foreground)] else []) +
    (if s.glow != 0 then [Glow(s.glow)] else [])
  }

  /** The payloads that close a highlight (UIForegroundOff, UIGlowOff). */
  function Close(s: Style): seq<Payload>
  {
    (if s.foreground != 0 then [Foreground(0)] else []) +
    (if s.glow != 0 then [Glow(0)] else [])
  }

  /** A highlight payload this style may insert. */
  predicate IsMarker(s: Style, q: Payload)
  {
    (s.foreground != 0 && q.Foreground? && (q.color == s.foreground || q.color == 0)) ||
    (s.glow != 0 && q.Glow? && (q.color == s.glow || q.color == 0))
  }

  /** One hit of a run: the skipped text if any, then the bracketed match. */
  function Piece(s: Style, text: string, pos: nat, h: Hit): seq<Payload>
    requires pos <= h.from && h.End() <= |text|
  {
    Rest(text[..h.from], pos) + Open(s) + [Text(text[h.from..h.End()])] + Close(s)
  }

  lemma PieceShape(s: Style, text: string, pos: nat, h: Hit)
    requires pos <= h.from && h.End() <= |text|
    ensures Piece(s, text, pos, h) ==
      (if pos < h.from then [Text(text[pos..h.from])] else []) + Open(s) + [Text(text[h.from..h.End()])] + Close(s)
  {
    assert text[..h.from][pos..] == text[pos..h.from];
  }

  /** The text left after the last hit, if any. */
  function Rest(text: string, pos: nat): seq<Payload>
    requires pos <= |text|
  {
    if pos < |text| then [Text(text[pos..])] else []
  }

  /** A text run rewritten from `pos` on: every hit found by scanning onwards, then the rest. */
  function SpliceFrom(p: Pattern, s: Style, text: string, pos: nat): seq<Payload>
    requires pos <= |text|
    decreases |text| - pos
  {
    match Scan(p, text, pos)
    case None => Rest(text, pos)
    case Some(h) => Piece(s, text, pos, h) + SpliceFrom(p, s, text, h.End())
  }

  /**
   * SpliceFrom with an accumulator: the payloads produced so far, extended hit
   * by hit. This is the shape of a loop that appends as it scans.
   */
  function SpliceAcc(p: Pattern, s: Style, text: string, acc: seq<Payload>, pos: nat): seq<Payload>
    requires pos <= |text|
    decreases |text| - pos
  {
    match Scan(p, text, pos)
    case None => acc + Rest(text, pos)
    case Some(h) => SpliceAcc(p, s, text, acc + Piece(s, text, pos, h), h.End())
  }

  /** Scanning with an accumulator appends the run's rewrite to it. */
  lemma {:induction false} SpliceAccIsAppend(p: Pattern, s: Style, text: string, acc: seq<Payload>, pos: nat)
    requires pos <= |text|
    ensures SpliceAcc(p, s, text, acc, pos) == acc + SpliceFrom(p, s, text, pos)
    decreases |text| - pos
  {
    match Scan(p, text, pos)
    case None =>
    case Some(h) =>
      SpliceAccIsAppend(p, s, text, acc + Piece(s, text, pos, h), h.End());
      AppendAssoc(acc, Piece(s, text, pos, h), SpliceFrom(p, s, text, h.End()));
  }

  /** One step of SpliceFrom, for callers that walk a run hit by hit. */
  lemma SpliceFromUnfold(p: Pattern, s: Style, text: string, pos: nat)
    requires pos <= |text|
    ensures Scan(p, text, pos).None? ==> SpliceFrom(p, s, text, pos) == Rest(text, pos)
    ensures Scan(p, text, pos).Some? ==>
      SpliceFrom(p, s, text, pos) == Piece(s, text, pos, Scan(p, text, pos).value) + SpliceFrom(p, s, text, Scan(p, text, pos).value.End())
  {
  }

  /** SpliceFrom at a hit: the text before the hit if any, the bracketed hit, then the rest of the run. */
  lemma SpliceFromHit(p: Pattern, s: Style, text: string, pos: nat, h: Hit)
    requires pos <= |text| && Scan(p, text, pos) == Some(h)
    ensures h.End() <= |text|
    ensures SpliceFrom(p, s, text, pos) ==
      ((if pos < h.from then [Text(text[pos..h.from])] else []) + Open(s) + [Text(text[h.from..h.End()])] + Close(s)) +
      SpliceFrom(p, s, text, h.End())
  {
    SpliceFromUnfold(p, s, text, pos);
    PieceShape(s, text, pos, h);
  }

  lemma AppendAssoc<T>(a: seq<T>, b: seq<T>, c: seq<T>)
    ensures (a + b) + c == a + (b + c)
  {
  }

  /**
   * True when the alert's search finds something in this payload: the first Alert.Match
   * of a text run, zero-width hits included, decides whether the alert matched.
   */
  predicate RunMatches(p: Pattern, q: Payload)
  {
    q.Text? && Find(p, q.text, 0).Some?
  }

  /** What one input payload becomes: a matching run is split, anything else is kept. */
  function SpliceRun(p: Pattern, s: Style, q: Payload): seq<Payload>
  {
    if RunMatches(p, q) then SpliceFrom(p, s, q.text, 0) else [q]
  }

  /** The rewritten list: every payload replaced by its block, in order. */
  function SpliceAll(p: Pattern, s: Style, ps: seq<Payload>): seq<Payload>
  {
    if ps == [] then [] else SpliceRun(p, s, ps[0]) + SpliceAll(p, s, ps[1..])
  }

  /** SpliceAll with an accumulator, payload by payload from index `i`: the shape of HandleAlert's loop. */
  function SpliceAllAcc(p: Pattern, s: Style, ps: seq<Payload>, acc: seq<Payload>, i: nat): seq<Payload>
    requires i <= |ps|
    decreases |ps| - i
  {
    if i == |ps| then acc else SpliceAllAcc(p, s, ps, acc + SpliceRun(p, s, ps[i]), i + 1)
  }

  lemma {:induction false} SpliceAllAccIsAppend(p: Pattern, s: Style, ps: seq<Payload>, acc: seq<Payload>, i: nat)
    requires i <= |ps|
    ensures SpliceAllAcc(p, s, ps, acc, i) == acc + SpliceAll(p, s, ps[i..])
    decreases |ps| - i
  {
    if i == |ps| {
      assert ps[i..] == [];
    } else {
      SpliceAllAccIsAppend(p, s, ps, acc + SpliceRun(p, s, ps[i]), i + 1);
      assert ps[i..][0] == ps[i] && ps[i..][1..] == ps[i + 1..];
      AppendAssoc(acc, SpliceRun(p, s, ps[i]), SpliceAll(p, s, ps[i + 1..]));
    }
  }

  /** Some text run among the first `n` payloads has a hit: the flag HandleAlert raises, payload by payload. */
  predicate MatchBefore(p: Pattern, ps: seq<Payload>, n: nat)
    requires n <= |ps|
  {
    n > 0 && (MatchBefore(p, ps, n - 1) || RunMatches(p, ps[n - 1]))
  }

  /** Some text run of `ps` has a hit. */
  predicate AnyMatch(p: Pattern, ps: seq<Payload>)
  {
    MatchBefore(p, ps, |ps|)
  }

  /** MatchBefore holds exactly when one of the first `n` payloads is a text run with a hit. */
  lemma {:induction false} MatchBeforeExists(p: Pattern, ps: seq<Payload>, n: nat)
    requires n <= |ps|
    ensures MatchBefore(p, ps, n) <==> exists i :: 0 <= i < n && RunMatches(p, ps[i])
  {
    if n > 0 {
      MatchBeforeExists(p, ps, n - 1);
      if RunMatches(p, ps[n - 1]) {
        assert 0 <= n - 1 < n && RunMatches(p, ps[n - 1]);
      }
      if exists i :: 0 <= i < n && RunMatches(p, ps[i]) {
        var i :| 0 <= i < n && RunMatches(p, ps[i]);
        assert i < n - 1 || RunMatches(p, ps[n - 1]);
      }
    }
  }

  /**
   * HandleAlert's result: whether some text run matched, and the payload list
   * (unchanged when nothing matched or highlighting is off).
   */
  function HandleAlertSpec(p: Pattern, s: Style, ps: seq<Payload>): (seq<Payload>, bool)
  {
    if !AnyMatch(p, ps) then (ps, false)
    else if !s.highlight then (ps, true)
    else (SpliceAll(p, s, ps), true)
  }

  /** The payloads of `ps` that are neither text runs nor markers of style `s`, in order. */
  function Untouched(s: Style, ps: seq<Payload>): seq<Payload>
  {
    if ps == [] then []
    else (if !ps[0].Text? && !IsMarker(s, ps[0]) then [ps[0]] else []) + Untouched(s, ps[1..])
  }

  lemma {:induction false} UntouchedAppend(s: Style, a: seq<Payload>, b: seq<Payload>)
    ensures Untouched(s, a + b) == Untouched(s, a) + Untouched(s, b)
  {
    if a == [] {
      assert a + b == b;
    } else {
      assert (a + b)[1..] == a[1..] + b;
      UntouchedAppend(s, a[1..], b);
    }
  }

  lemma SingleFacts(s: Style, q: Payload)
    ensures TextOf([q]) == (if q.Text? then q.text else "")
    ensures Untouched(s, [q]) == (if !q.Text? && !IsMarker(s, q) then [q] else [])
  {
    assert [q][1..] == [];
  }

  lemma MarkerFacts(s: Style)
    ensures TextOf(Open(s)) == "" && TextOf(Close(s)) == ""
    ensures Untouched(s, Open(s)) == [] && Untouched(s, Close(s)) == []
    ensures NoEmptyText(Open(s)) && NoEmptyText(Close(s))
  {
    var f := if s.foreground != 0 then [Foreground(s.foreground)] else [];
    var g := if s.glow != 0 then [Glow(s.glow)] else [];
    var f0 := if s.foreground != 0 then [Foreground(0)] else [];
    var g0 := if s.glow != 0 then [Glow(0)] else [];
    if s.foreground != 0 { SingleFacts(s, Foreground(s.foreground)); SingleFacts(s, Foreground(0)); }
    if s.glow != 0 { SingleFacts(s, Glow(s.glow)); SingleFacts(s, Glow(0)); }
    TextOfAppend(f, g);
    TextOfAppend(f0, g0);
    UntouchedAppend(s, f, g);
    UntouchedAppend(s, f0, g0);
  }

  lemma NoEmptyAppend(a: seq<Payload>, b: seq<Payload>)
    requires NoEmptyText(a) && NoEmptyText(b)
    ensures NoEmptyText(a + b)
  {
    forall i | 0 <= i < |a + b| && (a + b)[i].Text? ensures |(a + b)[i].text| > 0 {
      if i >= |a| { assert (a + b)[i] == b[i - |a|]; }
    }
  }

  lemma RestFacts(s: Style, text: string, pos: nat)
    requires pos <= |text|
    ensures TextOf(Rest(text, pos)) == text[pos..]
    ensures Untouched(s, Rest(text, pos)) == []
    ensures NoEmptyText(Rest(text, pos))
  {
    if pos < |text| { SingleFacts(s, Text(text[pos..])); }
  }

  lemma PieceFacts(s: Style, text: string, pos: nat, h: Hit)
    requires pos <= h.from && h.End() <= |text| && h.len > 0
    ensures TextOf(Piece(s, text, pos, h)) == text[pos..h.End()]
    ensures NoEmptyText(Piece(s, text, pos, h))
    ensures Untouched(s, Piece(s, text, pos, h)) == []
  {
    var pre := Rest(text[..h.from], pos);
    var m := text[h.from..h.End()];
    var mid := [Text(m)];
    RestFacts(s, text[..h.from], pos);
    SingleFacts(s, Text(m));
    assert NoEmptyText(mid) by { assert |m| == h.len; }
    MarkerFacts(s);
    var a := pre + Open(s);
    var b := a + mid;
    TextOfAppend(pre, Open(s));
    TextOfAppend(a, mid);
    TextOfAppend(b, Close(s));
    UntouchedAppend(s, pre, Open(s));
    UntouchedAppend(s, a, mid);
    UntouchedAppend(s, b, Close(s));
    NoEmptyAppend(pre, Open(s));
    NoEmptyAppend(a, mid);
    NoEmptyAppend(b, Close(s));
    assert text[..h.from][pos..] == text[pos..h.from];
    assert text[pos..h.End()] == text[pos..h.from] + m;
  }

  /** A rewritten run reads exactly as the original from `pos`. */
  lemma {:induction false} SpliceFromText(p: Pattern, s: Style, text: string, pos: nat)
    requires pos <= |text|
    ensures TextOf(SpliceFrom(p, s, text, pos)) == text[pos..]
    decreases |text| - pos
  {
    match Scan(p, text, pos)
    case None =>
      RestFacts(s, text, pos);
    case Some(h) =>
      var head := Piece(s, text, pos, h);
      var tail := SpliceFrom(p, s, text, h.End());
      assert SpliceFrom(p, s, text, pos) == head + tail;
      PieceFacts(s, text, pos, h);
      SpliceFromText(p, s, text, h.End());
      TextOfAppend(head, tail);
      assert text[pos..] == text[pos..h.End()] + text[h.End()..];
  }

  /** A rewritten run contains no empty text payload. */
  lemma {:induction false} SpliceFromNoEmpty(p: Pattern, s: Style, text: string, pos: nat)
    requires pos <= |text|
    ensures NoEmptyText(SpliceFrom(p, s, text, pos))
    decreases |text| - pos
  {
    match Scan(p, text, pos)
    case None =>
      RestFacts(s, text, pos);
    case Some(h) =>
      var head := Piece(s, text, pos, h);
      var tail := SpliceFrom(p, s, text, h.End());
      assert SpliceFrom(p, s, text, pos) == head + tail;
      PieceFacts(s, text, pos, h);
      SpliceFromNoEmpty(p, s, text, h.End());
      NoEmptyAppend(head, tail);
  }

  /** A rewritten run consists of text runs and this style's markers only. */
  lemma {:induction false} SpliceFromUntouched(p: Pattern, s: Style, text: string, pos: nat)
    requires pos <= |text|
    ensures Untouched(s, SpliceFrom(p, s, text, pos)) == []
    decreases |text| - pos
  {
    match Scan(p, text, pos)
    case None =>
      RestFacts(s, text, pos);
    case Some(h) =>
      var head := Piece(s, text, pos, h);
      var tail := SpliceFrom(p, s, text, h.End());
      assert SpliceFrom(p, s, text, pos) == head + tail;
      PieceFacts(s, text, pos, h);
      SpliceFromUntouched(p, s, text, h.End());
      UntouchedAppend(s, head, tail);
  }

  /** Splicing a whole list keeps its text. */
  lemma {:induction false} SpliceAllText(p: Pattern, s: Style, ps: seq<Payload>)
    ensures TextOf(SpliceAll(p, s, ps)) == TextOf(ps)
  {
    if ps != [] {
      var head := SpliceRun(p, s, ps[0]);
      var tail := SpliceAll(p, s, ps[1..]);
      assert SpliceAll(p, s, ps) == head + tail;
      SpliceAllText(p, s, ps[1..]);
      assert ps == [ps[0]] + ps[1..];
      TextOfAppend([ps[0]], ps[1..]);
      TextOfAppend(head, tail);
      SingleFacts(s, ps[0]);
      if RunMatches(p, ps[0]) {
        SpliceFromText(p, s, ps[0].text, 0);
        assert ps[0].text[0..] == ps[0].text;
      }
    }
  }

  /** Splicing a whole list keeps every payload other than text and this style's markers, in order. */
  lemma {:induction false} SpliceAllUntouched(p: Pattern, s: Style, ps: seq<Payload>)
    ensures Untouched(s, SpliceAll(p, s, ps)) == Untouched(s, ps)
  {
    if ps != [] {
      var head := SpliceRun(p, s, ps[0]);
      var tail := SpliceAll(p, s, ps[1..]);
      assert SpliceAll(p, s, ps) == head + tail;
      SpliceAllUntouched(p, s, ps[1..]);
      assert ps == [ps[0]] + ps[1..];
      UntouchedAppend(s, [ps[0]], ps[1..]);
      UntouchedAppend(s, head, tail);
      SingleFacts(s, ps[0]);
      if RunMatches(p, ps[0]) {
        SpliceFromUntouched(p, s, ps[0].text, 0);
      }
    }
  }

  /** Splicing a list without empty text runs adds none. */
  lemma {:induction false} SpliceAllNoEmpty(p: Pattern, s: Style, ps: seq<Payload>)
    requires NoEmptyText(ps)
    ensures NoEmptyText(SpliceAll(p, s, ps))
  {
    if ps != [] {
      var head := SpliceRun(p, s, ps[0]);
      var tail := SpliceAll(p, s, ps[1..]);
      assert SpliceAll(p, s, ps) == head + tail;
      assert NoEmptyText(ps[1..]) by {
        forall i | 0 <= i < |ps[1..]| && ps[1..][i].Text? ensures |ps[1..][i].text| > 0 {
          assert ps[1..][i] == ps[i + 1];
        }
      }
      SpliceAllNoEmpty(p, s, ps[1..]);
      if RunMatches(p, ps[0]) {
        SpliceFromNoEmpty(p, s, ps[0].text, 0);
      } else {
        assert head == [ps[0]];
      }
      NoEmptyAppend(head, tail);
    }
  }

  /**
   * The properties of HandleAlert's result: the text of the message is unchanged,
   * every payload other than text and this alert's markers keeps its order, no
   * empty run appears, and a list in which nothing matched comes back as it was.
   */
  lemma HandleAlertPreserves(p: Pattern, s: Style, ps: seq<Payload>)
    ensures TextOf(HandleAlertSpec(p, s, ps).0) == TextOf(ps)
    ensures Untouched(s, HandleAlertSpec(p, s, ps).0) == Untouched(s, ps)
    ensures NoEmptyText(ps) ==> NoEmptyText(HandleAlertSpec(p, s, ps).0)
    ensures !HandleAlertSpec(p, s, ps).1 ==> HandleAlertSpec(p, s, ps).0 == ps
    ensures HandleAlertSpec(p, s, ps).1 <==> exists i :: 0 <= i < |ps| && RunMatches(p, ps[i])
  {
    SpliceAllText(p, s, ps);
    SpliceAllUntouched(p, s, ps);
    if NoEmptyText(ps) {
      SpliceAllNoEmpty(p, s, ps);
    }
    MatchBeforeExists(p, ps, |ps|);
  }
}
