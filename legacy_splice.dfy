/**
 * The earlier plugin's rewrite of one alert over a payload list (Plugin.HandleMessage):
 * every hit is wrapped in both colour switches whenever highlighting is on, a regex
 * search moves on with NextMatch, and a text run without a hit is passed on as it came.
 */
module LegacySplice {
  import opened Wrappers
  import opened Chat
  import opened Matching
  import opened Splice

  /** uint: the earlier alert keeps its colour keys as 32-bit values. */
  newtype u32 = x: int | 0 <= x < 0x1_0000_0000

  /** The (ushort) cast of a colour key: its low 16 bits. */
  function Low16(x: u32): (r: u16)
    ensures r as int == x as int % 0x10000
    ensures x as int < 0x10000 ==> r as int == x as int
  {
    (x as int % 0x10000) as u16
  }

  /**
   * The cast wraps: keys 0x10000 apart give the same colour, so a key of 0x10000
   * switches the colour off like key 0.
   */
  lemma Low16Wraps(x: u32, y: u32)
    ensures x as int + 0x10000 == y as int ==> Low16(x) == Low16(y)
    ensures Low16(0x10000) == 0 && Low16(0xFFFF) as int == 0xFFFF
  {
  }

  /** Highlight, HighlightForeground and HighlightGlow of an earlier alert. */
  datatype LegacyStyle = LegacyStyle(highlight: bool, foreground: u32, glow: u32)

  /** The switches before a hit: both colours are set, even to key 0. */
  function LegacyOpen(s: LegacyStyle): seq<Payload>
  {
    if s.highlight then [Foreground(Low16(s.foreground)), Glow(Low16(s.glow))] else []
  }

  /** The switches after a hit: both colours back to 0. */
  function LegacyClose(s: LegacyStyle): seq<Payload>
  {
    if s.highlight then [Foreground(0), Glow(0)] else []
  }

  /** A colour switch this style may insert. */
  predicate LegacyMarker(s: LegacyStyle, q: Payload)
  {
    s.highlight &&
    ((q.Foreground? && (q.color == Low16(s.foreground) || q.color == 0)) ||
     (q.Glow? && (q.color == Low16(s.glow) || q.color == 0)))
  }

  /**
   * Where Match.NextMatch searches again after the hit `h`: at its end, or one
   * character further when the hit is empty.
   */
  function NextStart(h: Hit): nat
  {
    if h.len > 0 then h.End() else h.from + 1
  }

  /** One hit: the skipped text if there is any, then the hit (even an empty one) between the switches. */
  function LegacyPiece(s: LegacyStyle, text: string, pos: nat, h: Hit): seq<Payload>
    requires pos <= h.from && h.End() <= |text|
  {
    (if pos < h.from then [Text(text[pos..h.from])] else []) +
    LegacyOpen(s) + [Text(text[h.from..h.End()])] + LegacyClose(s)
  }

  /**
   * A text run rewritten from the search position `start` on, the text before it
   * and after `idx` not yet emitted: every hit up to the last one, then the rest.
   */
  function LegacyFrom(p: Pattern, s: LegacyStyle, text: string, idx: nat, start: nat): seq<Payload>
    requires idx <= start <= |text|
    decreases |text| - start, 1
  {
    match Find(p, text, start)
    case None => Rest(text, idx)
    case Some(h) =>
      LegacyPiece(s, text, idx, h) +
      LegacyTail(p, s, text, h)
  }

  /** A text run with a hit from its start. */
  predicate RunHit(p: Pattern, q: Payload)
  {
    q.Text? && Find(p, q.text, 0).Some?
  }

  /**
   * What one payload becomes: non-text payloads, and regex runs without a hit, are
   * kept as they are; a literal run without a hit is re-emitted only if non-empty.
   */
  function LegacyRun(p: Pattern, s: LegacyStyle, q: Payload): seq<Payload>
  {
    if !q.Text? || (p.Compiled? && Find(p, q.text, 0).None?) then [q]
    else LegacyFrom(p, s, q.text, 0, 0)
  }

  /** The new payload list after the first `n` payloads. */
  function LegacyAllTo(p: Pattern, s: LegacyStyle, ps: seq<Payload>, n: nat): seq<Payload>
    requires n <= |ps|
  {
    if n == 0 then [] else LegacyAllTo(p, s, ps, n - 1) + LegacyRun(p, s, ps[n - 1])
  }

  /** The alertMatch flag after the first `n` payloads. */
  predicate LegacyMatchTo(p: Pattern, ps: seq<Payload>, n: nat)
    requires n <= |ps|
  {
    n > 0 && (LegacyMatchTo(p, ps, n - 1) || RunHit(p, ps[n - 1]))
  }

  /** The payloads that are neither text nor this style's colour switches, in order. */
  function LegacyKept(s: LegacyStyle, ps: seq<Payload>): seq<Payload>
  {
    if ps == [] then []
    else (if !ps[0].Text? && !LegacyMarker(s, ps[0]) then [ps[0]] else []) + LegacyKept(s, ps[1..])
  }

  lemma {:induction false} LegacyKeptAppend(s: LegacyStyle, a: seq<Payload>, b: seq<Payload>)
    ensures LegacyKept(s, a + b) == LegacyKept(s, a) + LegacyKept(s, b)
  {
    if a == [] {
      assert a + b == b;
    } else {
      assert (a + b)[1..] == a[1..] + b;
      LegacyKeptAppend(s, a[1..], b);
    }
  }

  lemma LegacySingle(s: LegacyStyle, q: Payload)
    ensures TextOf([q]) == (if q.Text? then q.text else "")
    ensures LegacyKept(s, [q]) == (if !q.Text? && !LegacyMarker(s, q) then [q] else [])
  {
    assert [q][1..] == [];
  }

  lemma LegacyMarkerFacts(s: LegacyStyle)
    ensures TextOf(LegacyOpen(s)) == "" && TextOf(LegacyClose(s)) == ""
    ensures LegacyKept(s, LegacyOpen(s)) == [] && LegacyKept(s, LegacyClose(s)) == []
    ensures NoEmptyText(LegacyOpen(s)) && NoEmptyText(LegacyClose(s))
  {
    if s.highlight {
      var f := Foreground(Low16(s.foreground));
      var g := Glow(Low16(s.glow));
      LegacySingle(s, f);
      LegacySingle(s, g);
      LegacySingle(s, Foreground(0));
      LegacySingle(s, Glow(0));
      TextOfAppend([f], [g]);
      TextOfAppend([Foreground(0)], [Glow(0)]);
      LegacyKeptAppend(s, [f], [g]);
      LegacyKeptAppend(s, [Foreground(0)], [Glow(0)]);
    }
  }

  lemma LegacyRestFacts(s: LegacyStyle, text: string, pos: nat)
    requires pos <= |text|
    ensures TextOf(Rest(text, pos)) == text[pos..]
    ensures LegacyKept(s, Rest(text, pos)) == []
    ensures NoEmptyText(Rest(text, pos))
  {
    if pos < |text| {
      LegacySingle(s, Text(text[pos..]));
    }
  }

  /** A hit reads as the text it covers, adds only text and switches, and no empty run unless the hit is empty. */
  lemma LegacyPieceFacts(s: LegacyStyle, text: string, pos: nat, h: Hit)
    requires pos <= h.from && h.End() <= |text|
    ensures TextOf(LegacyPiece(s, text, pos, h)) == text[pos..h.End()]
    ensures LegacyKept(s, LegacyPiece(s, text, pos, h)) == []
    ensures h.len > 0 ==> NoEmptyText(LegacyPiece(s, text, pos, h))
  {
    LegacyPieceText(s, text, pos, h);
    LegacyPieceKept(s, text, pos, h);
    if h.len > 0 {
      LegacyPieceNoEmpty(s, text, pos, h);
    }
  }

  lemma LegacyPieceText(s: LegacyStyle, text: string, pos: nat, h: Hit)
    requires pos <= h.from && h.End() <= |text|
    ensures TextOf(LegacyPiece(s, text, pos, h)) == text[pos..h.End()]
  {
    var pre := if pos < h.from then [Text(text[pos..h.from])] else [];
    var m := text[h.from..h.End()];
    assert TextOf(pre) == text[pos..h.from] by {
      if pos < h.from {
        LegacySingle(s, Text(text[pos..h.from]));
      }
    }
    assert TextOf([Text(m)]) == m by {
      LegacySingle(s, Text(m));
    }
    LegacyMarkerText(s);
    var a := pre + LegacyOpen(s);
    TextOfAppend(pre, LegacyOpen(s));
    TextOfAppend(a, [Text(m)]);
    TextOfAppend(a + [Text(m)], LegacyClose(s));
    assert text[pos..h.End()] == text[pos..h.from] + m;
  }

  lemma LegacyMarkerText(s: LegacyStyle)
    ensures TextOf(LegacyOpen(s)) == "" && TextOf(LegacyClose(s)) == ""
  {
    LegacyMarkerFacts(s);
  }

  lemma LegacyPieceKept(s: LegacyStyle, text: string, pos: nat, h: Hit)
    requires pos <= h.from && h.End() <= |text|
    ensures LegacyKept(s, LegacyPiece(s, text, pos, h)) == []
  {
    var pre := if pos < h.from then [Text(text[pos..h.from])] else [];
    var mid := [Text(text[h.from..h.End()])];
    if pos < h.from {
      LegacySingle(s, Text(text[pos..h.from]));
    }
    LegacySingle(s, mid[0]);
    LegacyMarkerFacts(s);
    var a := pre + LegacyOpen(s);
    LegacyKeptAppend(s, pre, LegacyOpen(s));
    LegacyKeptAppend(s, a, mid);
    LegacyKeptAppend(s, a + mid, LegacyClose(s));
  }

  lemma LegacyPieceNoEmpty(s: LegacyStyle, text: string, pos: nat, h: Hit)
    requires pos <= h.from && h.End() <= |text| && h.len > 0
    ensures NoEmptyText(LegacyPiece(s, text, pos, h))
  {
    var pre := if pos < h.from then [Text(text[pos..h.from])] else [];
    var m := text[h.from..h.End()];
    var mid := [Text(m)];
    assert NoEmptyText(mid) by { assert |m| == h.len; }
    LegacyMarkerFacts(s);
    var a := pre + LegacyOpen(s);
    NoEmptyAppend(pre, LegacyOpen(s));
    NoEmptyAppend(a, mid);
    NoEmptyAppend(a + mid, LegacyClose(s));
  }

  /** The switches and pieces of one step of LegacyFrom. */
  lemma LegacyFromUnfold(p: Pattern, s: LegacyStyle, text: string, idx: nat, start: nat, h: Hit)
    requires idx <= start <= |text| && Find(p, text, start) == Some(h)
    ensures idx <= h.from && h.End() <= |text|
    ensures LegacyFrom(p, s, text, idx, start) == LegacyPiece(s, text, idx, h) + LegacyTail(p, s, text, h)
  {
  }

  /** Emitting one hit's piece moves the rewrite on to what follows the hit. */
  lemma LegacyAdvance(p: Pattern, s: LegacyStyle, text: string, idx: nat, start: nat, h: Hit,
                      before: seq<Payload>, after: seq<Payload>)
    requires idx <= start <= |text| && Find(p, text, start) == Some(h)
    requires h.End() <= |text| && idx <= h.from
    requires after == before + LegacyPiece(s, text, idx, h)
    ensures before + LegacyFrom(p, s, text, idx, start) == after + LegacyTail(p, s, text, h)
  {
    LegacyFromUnfold(p, s, text, idx, start, h);
    AppendAssoc(before, LegacyPiece(s, text, idx, h), LegacyTail(p, s, text, h));
  }

  /** After a non-empty hit the search goes on where the hit ends. */
  lemma LegacyTailNonEmpty(p: Pattern, s: LegacyStyle, text: string, h: Hit)
    requires h.End() <= |text| && h.len > 0
    ensures LegacyTail(p, s, text, h) == LegacyFrom(p, s, text, h.End(), h.End())
  {
  }

  /** Without a further hit the rewrite is the rest of the run. */
  lemma LegacyFromNone(p: Pattern, s: LegacyStyle, text: string, idx: nat, start: nat)
    requires idx <= start <= |text| && Find(p, text, start).None?
    ensures LegacyFrom(p, s, text, idx, start) == Rest(text, idx)
  {
  }

  /** What follows a hit: the rest of the run when NextMatch runs off its end, the next hits otherwise. */
  function LegacyTail(p: Pattern, s: LegacyStyle, text: string, h: Hit): seq<Payload>
    requires h.End() <= |text|
    decreases |text| - h.from, 0
  {
    if NextStart(h) > |text| then Rest(text, h.End()) else LegacyFrom(p, s, text, h.End(), NextStart(h))
  }

  /** Two payload lists that read as adjacent slices of `text` read, joined, as their union. */
  lemma TextJoin(head: seq<Payload>, tail: seq<Payload>, text: string, i: nat, j: nat)
    requires i <= j <= |text| && TextOf(head) == text[i..j] && TextOf(tail) == text[j..]
    ensures TextOf(head + tail) == text[i..]
  {
    TextOfAppend(head, tail);
    assert text[i..] == text[i..j] + text[j..];
  }

  /** A rewritten run reads as the original text after `idx`. */
  lemma {:induction false} LegacyFromText(p: Pattern, s: LegacyStyle, text: string, idx: nat, start: nat)
    requires idx <= start <= |text|
    ensures TextOf(LegacyFrom(p, s, text, idx, start)) == text[idx..]
    decreases |text| - start
  {
    var f := Find(p, text, start);
    if f.None? {
      LegacyRestFacts(s, text, idx);
    } else {
      var h := f.value;
      LegacyFromUnfold(p, s, text, idx, start, h);
      LegacyPieceFacts(s, text, idx, h);
      if NextStart(h) > |text| {
        LegacyRestFacts(s, text, h.End());
      } else {
        LegacyFromText(p, s, text, h.End(), NextStart(h));
      }
      TextJoin(LegacyPiece(s, text, idx, h), LegacyTail(p, s, text, h), text, idx, h.End());
    }
  }

  /** A rewritten run holds nothing but text and colour switches. */
  lemma {:induction false} LegacyFromKept(p: Pattern, s: LegacyStyle, text: string, idx: nat, start: nat)
    requires idx <= start <= |text|
    ensures LegacyKept(s, LegacyFrom(p, s, text, idx, start)) == []
    decreases |text| - start
  {
    match Find(p, text, start)
    case None =>
      LegacyRestFacts(s, text, idx);
    case Some(h) =>
      var head := LegacyPiece(s, text, idx, h);
      var tail := LegacyTail(p, s, text, h);
      LegacyFromUnfold(p, s, text, idx, start, h);
      LegacyPieceFacts(s, text, idx, h);
      if NextStart(h) > |text| {
        LegacyRestFacts(s, text, h.End());
      } else {
        LegacyFromKept(p, s, text, h.End(), NextStart(h));
      }
      LegacyKeptAppend(s, head, tail);
  }

  /** A literal alert with content rewrites a run without any empty text run. */
  lemma {:induction false} LegacyFromNoEmpty(p: Pattern, s: LegacyStyle, text: string, idx: nat, start: nat)
    requires idx <= start <= |text| && p.Literal? && |p.content| > 0
    ensures NoEmptyText(LegacyFrom(p, s, text, idx, start))
    decreases |text| - start
  {
    match Find(p, text, start)
    case None =>
      LegacyRestFacts(s, text, idx);
    case Some(h) =>
      var head := LegacyPiece(s, text, idx, h);
      var tail := LegacyTail(p, s, text, h);
      LegacyFromUnfold(p, s, text, idx, start, h);
      LegacyPieceFacts(s, text, idx, h);
      if NextStart(h) > |text| {
        LegacyRestFacts(s, text, h.End());
      } else {
        LegacyFromNoEmpty(p, s, text, h.End(), NextStart(h));
      }
      NoEmptyAppend(head, tail);
  }

  /** A payload's rewrite reads as the payload. */
  lemma LegacyRunText(p: Pattern, s: LegacyStyle, q: Payload)
    ensures TextOf(LegacyRun(p, s, q)) == TextOf([q])
    ensures LegacyKept(s, LegacyRun(p, s, q)) == LegacyKept(s, [q])
  {
    LegacySingle(s, q);
    if LegacyRun(p, s, q) != [q] {
      LegacyFromText(p, s, q.text, 0, 0);
      LegacyFromKept(p, s, q.text, 0, 0);
      assert q.text[0..] == q.text;
    }
  }

  /** The rewritten list reads as the original and keeps the payloads other than text and switches in order. */
  lemma {:induction false} LegacyAllText(p: Pattern, s: LegacyStyle, ps: seq<Payload>, n: nat)
    requires n <= |ps|
    ensures TextOf(LegacyAllTo(p, s, ps, n)) == TextOf(ps[..n])
    ensures LegacyKept(s, LegacyAllTo(p, s, ps, n)) == LegacyKept(s, ps[..n])
  {
    if n > 0 {
      var q := ps[n - 1];
      var before := LegacyAllTo(p, s, ps, n - 1);
      var run := LegacyRun(p, s, q);
      LegacyAllText(p, s, ps, n - 1);
      assert ps[..n] == ps[..n - 1] + [q];
      TextOfAppend(ps[..n - 1], [q]);
      TextOfAppend(before, run);
      LegacyKeptAppend(s, ps[..n - 1], [q]);
      LegacyKeptAppend(s, before, run);
      LegacyRunText(p, s, q);
    }
  }

  /** A literal alert with content adds no empty run to a list that had none. */
  lemma {:induction false} LegacyAllNoEmpty(p: Pattern, s: LegacyStyle, ps: seq<Payload>, n: nat)
    requires n <= |ps| && p.Literal? && |p.content| > 0 && NoEmptyText(ps)
    ensures NoEmptyText(LegacyAllTo(p, s, ps, n))
  {
    if n > 0 {
      LegacyAllNoEmpty(p, s, ps, n - 1);
      NoEmptyAt(ps, n - 1);
      LegacyAllStepNoEmpty(p, s, ps, n);
    }
  }

  lemma LegacyAllStepNoEmpty(p: Pattern, s: LegacyStyle, ps: seq<Payload>, n: nat)
    requires 0 < n <= |ps| && p.Literal? && |p.content| > 0
    requires NoEmptyText(LegacyAllTo(p, s, ps, n - 1))
    requires ps[n - 1].Text? ==> |ps[n - 1].text| > 0
    ensures NoEmptyText(LegacyAllTo(p, s, ps, n))
  {
    LegacyRunNoEmpty(p, s, ps[n - 1]);
    NoEmptyAppend(LegacyAllTo(p, s, ps, n - 1), LegacyRun(p, s, ps[n - 1]));
  }

  lemma NoEmptyAt(ps: seq<Payload>, i: nat)
    requires NoEmptyText(ps) && i < |ps|
    ensures ps[i].Text? ==> |ps[i].text| > 0
  {
  }

  lemma LegacyRunNoEmpty(p: Pattern, s: LegacyStyle, q: Payload)
    requires p.Literal? && |p.content| > 0 && (q.Text? ==> |q.text| > 0)
    ensures NoEmptyText(LegacyRun(p, s, q))
  {
    if q.Text? {
      LegacyFromNoEmpty(p, s, q.text, 0, 0);
    }
  }

  /** The flag is raised exactly when one of the first `n` payloads is a text run with a hit. */
  lemma {:induction false} LegacyMatchExists(p: Pattern, ps: seq<Payload>, n: nat)
    requires n <= |ps|
    ensures LegacyMatchTo(p, ps, n) <==> exists i :: 0 <= i < n && RunHit(p, ps[i])
  {
    if n > 0 {
      LegacyMatchExists(p, ps, n - 1);
      if RunHit(p, ps[n - 1]) {
        assert 0 <= n - 1 < n && RunHit(p, ps[n - 1]);
      }
      if exists i :: 0 <= i < n && RunHit(p, ps[i]) {
        var i :| 0 <= i < n && RunHit(p, ps[i]);
        assert i < n - 1 || RunHit(p, ps[n - 1]);
      }
    }
  }
}
