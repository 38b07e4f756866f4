/**
 * The bounds-checked list edits the view model and both adapters make on
 * their backing lists (`List.set` and `List.remove(int)` guarded by
 * `0 <= position < size()`), stated once as relations between the list
 * before and after.
 */
module ListEdits {

  predicate InRange<T>(list: seq<T>, position: int) {
    0 <= position < |list|
  }

  /**
   * `after` is `before` with the entry at `position` replaced by `x`, and
   * is `before` itself when `position` is out of range.
   */
  predicate ReplacedAt<T(==)>(before: seq<T>, position: int, x: T, after: seq<T>) {
    if InRange(before, position) then
      && |after| == |before|
      && after[position] == x
      && forall i :: 0 <= i < |after| && i != position ==> after[i] == before[i]
    else
      after == before
  }

  /**
   * `after` is `before` without the entry at `position`, the others kept in
   * order, and is `before` itself when `position` is out of range.
   */
  predicate RemovedAt<T(==)>(before: seq<T>, position: int, after: seq<T>) {
    if InRange(before, position) then
      && |after| == |before| - 1
      && (forall i :: 0 <= i < position ==> after[i] == before[i])
      && (forall i :: position <= i < |after| ==> after[i] == before[i + 1])
    else
      after == before
  }

  /** A replacement is Dafny's sequence update, so exactly one result satisfies it. */
  lemma ReplacedAtIsUpdate<T>(before: seq<T>, position: int, x: T, after: seq<T>)
    requires InRange(before, position)
    ensures ReplacedAt(before, position, x, after) <==> after == before[position := x]
  {
  }

  /** A removal takes out one occurrence of the removed entry and nothing else. */
  lemma RemovedAtMultiset<T>(before: seq<T>, position: int, after: seq<T>)
    requires InRange(before, position) && RemovedAt(before, position, after)
    ensures multiset(after) + multiset{before[position]} == multiset(before)
  {
    assert after == before[..position] + before[position + 1..];
    assert before == before[..position] + [before[position]] + before[position + 1..];
  }
}
