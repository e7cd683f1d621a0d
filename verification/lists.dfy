/**
 * The two `List<T>` operations the culling system relies on: `Remove`
 * (first occurrence) and `Sort` by a key, the latter promised only up to
 * the order of equal keys.
 */
module Lists {

  /** The position of the first occurrence. */
  function IndexOf<T(==)>(xs: seq<T>, x: T): (r: nat)
    requires x in xs
    ensures r < |xs| && xs[r] == x && x !in xs[..r]
    decreases |xs|
  {
    if xs[0] == x then 0
    else
      var i := IndexOf(xs[1..], x);
      assert xs[..i + 1] == [xs[0]] + xs[1..][..i];
      i + 1
  }

  /** `List.Remove`: drops the first occurrence; a list without it is unchanged. */
  function RemoveFirst<T(==)>(xs: seq<T>, x: T): (r: seq<T>)
    ensures x !in xs ==> r == xs
    ensures x in xs ==> |r| == |xs| - 1 && r == xs[..IndexOf(xs, x)] + xs[IndexOf(xs, x) + 1..]
    ensures multiset(r) == multiset(xs) - multiset{x}
  {
    if x in xs then
      var i := IndexOf(xs, x);
      assert xs == xs[..i] + [xs[i]] + xs[i + 1..];
      xs[..i] + xs[i + 1..]
    else
      assert multiset(xs)[x] == 0;
      xs
  }

  /** Ascending by `key`. */
  predicate SortedBy<T>(xs: seq<T>, key: T -> real) {
    forall i, j | 0 <= i < j < |xs| :: key(xs[i]) <= key(xs[j])
  }

  function InsertBy<T>(x: T, xs: seq<T>, key: T -> real): (r: seq<T>)
    requires SortedBy(xs, key)
    ensures SortedBy(r, key)
    ensures multiset(r) == multiset(xs) + multiset{x}
    ensures |r| == |xs| + 1
    ensures key(r[0]) == key(x) || (xs != [] && key(r[0]) == key(xs[0]))
    decreases |xs|
  {
    if xs == [] then [x]
    else if key(x) <= key(xs[0]) then [x] + xs
    else
      var rest := InsertBy(x, xs[1..], key);
      InsertBehindHead(x, xs, rest, key);
      [xs[0]] + rest
  }

  /** Inserting behind a head whose key is smaller keeps the list sorted and adds `x` to its contents. */
  lemma InsertBehindHead<T>(x: T, xs: seq<T>, rest: seq<T>, key: T -> real)
    requires SortedBy(xs, key) && xs != [] && key(xs[0]) < key(x)
    requires SortedBy(rest, key) && multiset(rest) == multiset(xs[1..]) + multiset{x} && rest != []
    requires key(rest[0]) == key(x) || (xs[1..] != [] && key(rest[0]) == key(xs[1..][0]))
    ensures SortedBy([xs[0]] + rest, key)
    ensures multiset([xs[0]] + rest) == multiset(xs) + multiset{x}
  {
    assert xs == [xs[0]] + xs[1..];
    assert forall k | 0 <= k < |rest| :: key(xs[0]) <= key(rest[0]) <= key(rest[k]);
    ConsSorted(xs[0], rest, key);
  }

  /** A sorted list stays sorted behind a head whose key is no larger than any of its keys. */
  lemma ConsSorted<T>(h: T, xs: seq<T>, key: T -> real)
    requires SortedBy(xs, key)
    requires forall k | 0 <= k < |xs| :: key(h) <= key(xs[k])
    ensures SortedBy([h] + xs, key)
  {
    var ys := [h] + xs;
    forall i, j | 0 <= i < j < |ys|
      ensures key(ys[i]) <= key(ys[j])
    {
      if i > 0 {
        assert ys[i] == xs[i - 1] && ys[j] == xs[j - 1];
      } else {
        assert ys[j] == xs[j - 1];
      }
    }
  }

  /** Insertion sort by `key`: sorted, and a permutation of its input. */
  function SortBy<T>(xs: seq<T>, key: T -> real): (r: seq<T>)
    ensures SortedBy(r, key)
    ensures multiset(r) == multiset(xs)
    decreases |xs|
  {
    if xs == [] then []
    else
      assert xs == [xs[0]] + xs[1..];
      InsertBy(xs[0], SortBy(xs[1..], key), key)
  }
}
