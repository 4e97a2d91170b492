/**
 * An alert's channel list as the editors change it: the checkbox of one chat type
 * removes every copy of it (Party takes CrossParty along), adds it back once when
 * checked, and sorts the list by the channel's numeric value.
 */
module Channels {
  import opened Chat
  import opened ListOps

  predicate Sorted(cs: seq<ChatType>)
  {
    forall i, j :: 0 <= i < j < |cs| ==> cs[i] <= cs[j]
  }

  /** Puts `c` into a sorted list before the first larger channel. */
  function InsertSorted(c: ChatType, cs: seq<ChatType>): seq<ChatType>
  {
    if cs == [] || c <= cs[0] then [c] + cs else [cs[0]] + InsertSorted(c, cs[1..])
  }

  /** List.Sort on the channel list (enum order is numeric order). */
  function Sort(cs: seq<ChatType>): seq<ChatType>
  {
    if cs == [] then [] else InsertSorted(cs[0], Sort(cs[1..]))
  }

  lemma SortedCons(x: ChatType, r: seq<ChatType>)
    requires Sorted(r) && forall y :: y in r ==> x <= y
    ensures Sorted([x] + r)
  {
    forall i, j | 0 <= i < j < |[x] + r|
      ensures ([x] + r)[i] <= ([x] + r)[j]
    {
      assert ([x] + r)[j] == r[j - 1] && r[j - 1] in r;
      if i > 0 {
        assert ([x] + r)[i] == r[i - 1];
      }
    }
  }

  lemma {:induction false} InsertSortedCount(c: ChatType, cs: seq<ChatType>)
    ensures multiset(InsertSorted(c, cs)) == multiset{c} + multiset(cs)
  {
    if cs != [] && !(c <= cs[0]) {
      InsertSortedCount(c, cs[1..]);
      assert cs == [cs[0]] + cs[1..];
    }
  }

  lemma {:induction false} InsertSortedSorted(c: ChatType, cs: seq<ChatType>)
    requires Sorted(cs)
    ensures Sorted(InsertSorted(c, cs))
  {
    if cs == [] || c <= cs[0] {
      SortedCons(c, cs);
    } else {
      var tail := cs[1..];
      InsertSortedSorted(c, tail);
      InsertSortedCount(c, tail);
      var r := InsertSorted(c, tail);
      forall y | y in r
        ensures cs[0] <= y
      {
        assert multiset(r)[y] > 0;
        if y != c {
          assert y in multiset(tail);
        }
      }
      SortedCons(cs[0], r);
    }
  }

  /** Sorting orders the list and keeps each channel as often as it was listed. */
  lemma {:induction false} SortFacts(cs: seq<ChatType>)
    ensures Sorted(Sort(cs))
    ensures multiset(Sort(cs)) == multiset(cs)
  {
    if cs != [] {
      SortFacts(cs[1..]);
      InsertSortedSorted(cs[0], Sort(cs[1..]));
      InsertSortedCount(cs[0], Sort(cs[1..]));
      assert cs == [cs[0]] + cs[1..];
    }
  }

  /** The types a checkbox offers: every chat type but CrossParty, Debug and Urgent. */
  predicate Toggleable(t: ChatType)
  {
    t != CrossParty && t != Debug && t != Urgent
  }

  /** What unchecking `t` removes: `t`, and CrossParty along with Party. */
  function Coupled(t: ChatType): set<ChatType>
  {
    if t == Party then {Party, CrossParty} else {t}
  }

  /** What checking `t` adds: `t`, then CrossParty after Party. */
  function Added(t: ChatType): seq<ChatType>
  {
    if t == Party then [Party, CrossParty] else [t]
  }

  /** The channel list after the checkbox of `t` is set to `on`. */
  function Toggle(cs: seq<ChatType>, t: ChatType, on: bool): seq<ChatType>
  {
    Sort(RemoveAll(cs, Coupled(t)) + (if on then Added(t) else []))
  }

  /**
   * After a toggle the list is sorted; `t` (with CrossParty, for Party) is listed
   * exactly once when checked and not at all when unchecked; every other channel
   * is listed as often as before.
   */
  lemma ToggleCounts(cs: seq<ChatType>, t: ChatType, on: bool, c: ChatType)
    requires Toggleable(t)
    ensures Sorted(Toggle(cs, t, on))
    ensures multiset(Toggle(cs, t, on))[c] ==
      if c in Coupled(t) then (if on then 1 else 0) else multiset(cs)[c]
  {
    var kept := RemoveAll(cs, Coupled(t));
    var added := if on then Added(t) else [];
    SortFacts(kept + added);
    RemoveAllCount(cs, Coupled(t), c);
    assert multiset(kept + added) == multiset(kept) + multiset(added);
  }

  /** Party and CrossParty stay coupled: after toggling Party, both are listed or neither is. */
  lemma ToggleParty(cs: seq<ChatType>, on: bool)
    ensures Party in Toggle(cs, Party, on) <==> on
    ensures CrossParty in Toggle(cs, Party, on) <==> on
  {
    ToggleCounts(cs, Party, on, Party);
    ToggleCounts(cs, Party, on, CrossParty);
  }

  /** A toggle of `t` decides membership of `t` and leaves every unrelated channel's membership alone. */
  lemma ToggleMembership(cs: seq<ChatType>, t: ChatType, on: bool, c: ChatType)
    requires Toggleable(t)
    ensures t in Toggle(cs, t, on) <==> on
    ensures c !in Coupled(t) ==> (c in Toggle(cs, t, on) <==> c in cs)
  {
    ToggleCounts(cs, t, on, t);
    ToggleCounts(cs, t, on, c);
  }

  /** The channels of a new alert: Say, Shout, Yell, Party, Alliance and FreeCompany, in that order. */
  const DefaultChannels: seq<ChatType> := [Say, Shout, Yell, Party, Alliance, FreeCompany]
}
