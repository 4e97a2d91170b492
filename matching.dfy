/**
 * How an alert finds its next occurrence in a text run: the literal search
 * (string.IndexOf with a culture-invariant comparison, modelled as exact or
 * ASCII-case-folded character comparison) and the
 * compiled regular expression, which stays an oracle.
 */
module Matching {
  import opened Wrappers

  /** A match: its start index and its length, both in characters. */
  datatype Hit = Hit(from: nat, len: nat)
  {
    function End(): nat { from + len }
  }

  /** A hit found when searching `text` from `start` lies at or after `start` and inside `text`. */
  ghost predicate InBounds(text: string, start: nat, h: Option<Hit>)
  {
    h.Some? ==> start <= h.value.from && h.value.End() <= |text|
  }

  /**
   * A compiled .NET regular expression, seen only through Regex.Match(text, startat):
   * the leftmost match at or after `startat`, or nothing.
   */
  datatype RawRegex = RawRegex(find: (string, nat) -> Option<Hit>)

  ghost predicate WellBehaved(r: RawRegex)
  {
    forall text: string, start: nat {:trigger r.find(text, start)} ::
      start <= |text| ==> InBounds(text, start, r.find(text, start))
  }

  /** The only assumption made about the regex engine: its matches lie in bounds. */
  type Regex = r: RawRegex | WellBehaved(r) witness RawRegex((text: string, start: nat) => None)

  /** The case fold of the literal search: ASCII upper-case letters map to lower case. */
  function Fold(c: char): (d: char)
    ensures !('A' <= d <= 'Z')
    ensures d != c ==> 'A' <= c <= 'Z'
    ensures ('a' <= d <= 'z') <==> ('A' <= c <= 'Z' || 'a' <= c <= 'z')
  {
    if 'A' <= c <= 'Z' then c + ('a' - 'A') else c
  }

  /**
   * The two comparisons of the source: InvariantCultureIgnoreCase and InvariantCulture,
   * modelled as ASCII-case-folded and exact character comparison.
   */
  predicate SameChar(a: char, b: char, ignoreCase: bool)
  {
    if ignoreCase then Fold(a) == Fold(b) else a == b
  }

  /**
   * Ignoring case, two characters are the same exactly when they are equal or are
   * the upper- and lower-case forms of one ASCII letter.
   */
  lemma SameCharIgnoringCase(a: char, b: char)
    ensures SameChar(a, b, true) <==>
      a == b ||
      ('A' <= a <= 'Z' && b == a + ('a' - 'A')) ||
      ('A' <= b <= 'Z' && a == b + ('a' - 'A'))
  {
  }

  /** `value` occurs in `text` at index `i` under the chosen comparison. */
  predicate OccursAt(text: string, value: string, i: nat, ignoreCase: bool)
  {
    i + |value| <= |text| &&
    forall k :: 0 <= k < |value| ==> SameChar(text[i + k], value[k], ignoreCase)
  }

  /**
   * string.IndexOf(value, start, comparison): the leftmost occurrence of `value`
   * at or after `start`, or -1 (an empty `value` occurs at `start`).
   * IndexOfLeftmost states what it finds.
   */
  function IndexOf(text: string, value: string, start: nat, ignoreCase: bool): (r: int)
    requires start <= |text|
    ensures r == -1 || (start <= r && r + |value| <= |text|)
    decreases |text| - start
  {
    if start + |value| > |text| then -1
    else if OccursAt(text, value, start, ignoreCase) then start
    else IndexOf(text, value, start + 1, ignoreCase)
  }

  /** IndexOf finds an occurrence with none before it, and -1 means there is none at all. */
  lemma {:induction false} IndexOfLeftmost(text: string, value: string, start: nat, ignoreCase: bool)
    requires start <= |text|
    ensures var r := IndexOf(text, value, start, ignoreCase);
      (r >= 0 ==> OccursAt(text, value, r, ignoreCase)) &&
      (r >= 0 ==> forall i :: start <= i < r ==> !OccursAt(text, value, i, ignoreCase)) &&
      (r == -1 ==> forall i :: start <= i <= |text| ==> !OccursAt(text, value, i, ignoreCase))
    decreases |text| - start
  {
    if start + |value| > |text| {
    } else if OccursAt(text, value, start, ignoreCase) {
    } else {
      IndexOfLeftmost(text, value, start + 1, ignoreCase);
    }
  }

  /** What an alert searches with: its literal content, or its compiled regex. */
  datatype Pattern =
    | Literal(content: string, ignoreCase: bool)
    | Compiled(regex: Regex)

  /** Alert.Match as written: one search from `start`, as the source reports it. */
  function Find(p: Pattern, text: string, start: nat): (h: Option<Hit>)
    requires start <= |text|
    ensures InBounds(text, start, h)
    ensures p.Literal? && h.Some? ==> h.value.len == |p.content|
  {
    match p
    case Compiled(r) => r.find(text, start)
    case Literal(content, ignoreCase) =>
      var i := IndexOf(text, content, start, ignoreCase);
      if i >= 0 then Some(Hit(i, |content|)) else None
  }

  /**
   * The search the corrected splice loop uses: Find, but a zero-width hit is passed
   * over by searching again one character further on, so every hit it reports has
   * positive length and the loop always moves on. An empty hit has no text to
   * bracket, so it is not reported at all (.NET's NextMatch would report it and
   * then resume one character on). See "Findings" for why.
   */
  function Scan(p: Pattern, text: string, start: nat): (h: Option<Hit>)
    requires start <= |text|
    ensures InBounds(text, start, h)
    ensures h.Some? ==> h.value.len > 0
    decreases |text| - start
  {
    var f := Find(p, text, start);
    if f.None? || f.value.len > 0 then f
    else if f.value.from + 1 > |text| then None
    else Scan(p, text, f.value.from + 1)
  }

  /** Scan reports nothing where Find does, and Find's own hit whenever that hit is not empty. */
  lemma ScanRefinesFind(p: Pattern, text: string, start: nat)
    requires start <= |text|
    ensures Find(p, text, start).None? ==> Scan(p, text, start).None?
    ensures Find(p, text, start).Some? && Find(p, text, start).value.len > 0 ==>
      Scan(p, text, start) == Find(p, text, start)
  {
  }
}
