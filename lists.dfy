/**
 * The List<T> operations the editors apply to the ordered alert list, as
 * functions on sequences, and the list actions a row button requests.
 */
module ListOps {

  /** List.IndexOf: the first index holding `x`, or -1 when `x` is absent. */
  function IndexOf<T(==)>(xs: seq<T>, x: T): (r: int)
    ensures -1 <= r < |xs|
    ensures r >= 0 ==> xs[r] == x && x !in xs[..r]
    ensures r < 0 <==> x !in xs
  {
    if xs == [] then -1
    else if xs[0] == x then 0
    else
      var r := IndexOf(xs[1..], x);
      assert xs == [xs[0]] + xs[1..];
      if r < 0 then -1
      else
        assert xs[..r + 1] == [xs[0]] + xs[1..][..r];
        r + 1
  }

  /** List.RemoveAt(i). */
  function RemoveAt<T>(xs: seq<T>, i: nat): seq<T>
    requires i < |xs|
  {
    xs[..i] + xs[i + 1..]
  }

  /** List.Insert(i, x). */
  function Insert<T>(xs: seq<T>, i: nat, x: T): seq<T>
    requires i <= |xs|
  {
    xs[..i] + [x] + xs[i..]
  }

  /** RemoveAt drops exactly the item at `i`; the others keep their order. */
  lemma RemoveAtFacts<T>(xs: seq<T>, i: nat)
    requires i < |xs|
    ensures |RemoveAt(xs, i)| == |xs| - 1
    ensures forall j :: 0 <= j < i ==> RemoveAt(xs, i)[j] == xs[j]
    ensures forall j :: i <= j < |xs| - 1 ==> RemoveAt(xs, i)[j] == xs[j + 1]
    ensures multiset(RemoveAt(xs, i)) == multiset(xs) - multiset{xs[i]}
  {
    assert xs == xs[..i] + [xs[i]] + xs[i + 1..];
  }

  /** Insert puts `x` at `i` and shifts the items from `i` on by one. */
  lemma InsertFacts<T>(xs: seq<T>, i: nat, x: T)
    requires i <= |xs|
    ensures |Insert(xs, i, x)| == |xs| + 1 && Insert(xs, i, x)[i] == x
    ensures forall j :: 0 <= j < i ==> Insert(xs, i, x)[j] == xs[j]
    ensures forall j :: i < j <= |xs| ==> Insert(xs, i, x)[j] == xs[j - 1]
    ensures multiset(Insert(xs, i, x)) == multiset(xs) + multiset{x}
  {
    assert xs == xs[..i] + xs[i..];
  }

  /** List.Remove(x): drops the first occurrence of `x`, if there is one. */
  function Remove<T(==)>(xs: seq<T>, x: T): seq<T>
  {
    var i := IndexOf(xs, x);
    if i < 0 then xs else RemoveAt(xs, i)
  }

  /** Remove takes out one copy of `x` when there is one and leaves the list alone otherwise. */
  lemma RemoveFacts<T>(xs: seq<T>, x: T)
    ensures x !in xs ==> Remove(xs, x) == xs
    ensures x in xs ==> |Remove(xs, x)| == |xs| - 1
    ensures multiset(Remove(xs, x)) == multiset(xs) - multiset{x}
  {
    var i := IndexOf(xs, x);
    if i >= 0 {
      RemoveAtFacts(xs, i);
    } else {
      assert multiset(xs)[x] == 0;
    }
  }

  /** Swaps the items at `i` and `j`. */
  function Swap<T>(xs: seq<T>, i: nat, j: nat): seq<T>
    requires i < |xs| && j < |xs|
  {
    xs[i := xs[j]][j := xs[i]]
  }

  lemma SwapPermutes<T>(xs: seq<T>, i: nat, j: nat)
    requires i < |xs| && j < |xs|
    ensures |Swap(xs, i, j)| == |xs|
    ensures multiset(Swap(xs, i, j)) == multiset(xs)
  {
  }

  /** The MoveUp action: the item moves one place towards the front, unless it is first or absent. */
  function ShiftUp<T(==)>(xs: seq<T>, x: T): seq<T>
  {
    var i := IndexOf(xs, x);
    if i <= 0 then xs else Insert(RemoveAt(xs, i), i - 1, x)
  }

  /** The MoveDown action: the item moves one place towards the end, unless it is last or absent. */
  function ShiftDown<T(==)>(xs: seq<T>, x: T): seq<T>
  {
    var i := IndexOf(xs, x);
    if i < 0 || i >= |xs| - 1 then xs else Insert(RemoveAt(xs, i), i + 1, x)
  }

  /** Moving up trades places with the predecessor; at the front, or when absent, nothing changes. */
  lemma ShiftUpSwaps<T>(xs: seq<T>, x: T)
    ensures var i := IndexOf(xs, x);
      (i <= 0 ==> ShiftUp(xs, x) == xs) &&
      (i > 0 ==> ShiftUp(xs, x) == Swap(xs, i - 1, i))
  {
    var i := IndexOf(xs, x);
    if i > 0 {
      var r := ShiftUp(xs, x);
      RemoveAtFacts(xs, i);
      InsertFacts(RemoveAt(xs, i), i - 1, x);
      assert forall j :: 0 <= j < |xs| ==> r[j] == Swap(xs, i - 1, i)[j];
    }
  }

  /** Moving down trades places with the successor; at the end, or when absent, nothing changes. */
  lemma ShiftDownSwaps<T>(xs: seq<T>, x: T)
    ensures var i := IndexOf(xs, x);
      (i < 0 || i >= |xs| - 1 ==> ShiftDown(xs, x) == xs) &&
      (0 <= i < |xs| - 1 ==> ShiftDown(xs, x) == Swap(xs, i, i + 1))
  {
    var i := IndexOf(xs, x);
    if 0 <= i < |xs| - 1 {
      var r := ShiftDown(xs, x);
      RemoveAtFacts(xs, i);
      InsertFacts(RemoveAt(xs, i), i + 1, x);
      assert forall j :: 0 <= j < |xs| ==> r[j] == Swap(xs, i, i + 1)[j];
    }
  }

  /** A row button's request, ConfigAction; `NoAction` is ConfigAction.None. */
  datatype ConfigAction = NoAction | Delete | MoveUp | MoveDown

  /** The alert list after the requested action on `x`. */
  function ApplyAction<T(==)>(xs: seq<T>, action: ConfigAction, x: T): seq<T>
  {
    match action
    case NoAction => xs
    case Delete => Remove(xs, x)
    case MoveUp => ShiftUp(xs, x)
    case MoveDown => ShiftDown(xs, x)
  }

  /** Moves keep the list's items, with their counts; Delete takes out one copy of `x`. */
  lemma ApplyActionCounts<T>(xs: seq<T>, action: ConfigAction, x: T)
    ensures multiset(ApplyAction(xs, action, x)) ==
      if action.Delete? then multiset(xs) - multiset{x} else multiset(xs)
    ensures !action.Delete? ==> |ApplyAction(xs, action, x)| == |xs|
  {
    match action {
      case NoAction =>
      case Delete =>
        RemoveFacts(xs, x);
      case MoveUp =>
        ShiftUpSwaps(xs, x);
        var i := IndexOf(xs, x);
        if i > 0 {
          SwapPermutes(xs, i - 1, i);
        }
      case MoveDown =>
        ShiftDownSwaps(xs, x);
        var i := IndexOf(xs, x);
        if 0 <= i < |xs| - 1 {
          SwapPermutes(xs, i, i + 1);
        }
    }
  }

  /** An action never brings in an item the list did not hold. */
  lemma ApplyActionWithin<T>(xs: seq<T>, action: ConfigAction, x: T)
    ensures forall y :: y in ApplyAction(xs, action, x) ==> y in xs
  {
    var r := ApplyAction(xs, action, x);
    ApplyActionCounts(xs, action, x);
    forall y | y in r
      ensures y in xs
    {
      assert multiset(r)[y] > 0;
    }
  }

  /** List.RemoveAll(pred) for a predicate that tests membership in `gone`; the survivors keep their order. */
  function RemoveAll<T>(xs: seq<T>, gone: set<T>): seq<T>
  {
    if xs == [] then [] else (if xs[0] in gone then [] else [xs[0]]) + RemoveAll(xs[1..], gone)
  }

  /** RemoveAll drops every copy of the items in `gone` and keeps every copy of the others. */
  lemma {:induction false} RemoveAllCount<T>(xs: seq<T>, gone: set<T>, y: T)
    ensures multiset(RemoveAll(xs, gone))[y] == if y in gone then 0 else multiset(xs)[y]
  {
    if xs != [] {
      RemoveAllCount(xs[1..], gone, y);
      assert xs == [xs[0]] + xs[1..];
    }
  }
}
