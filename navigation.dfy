/** Wrap-around stepping of an index over a list of `length` items, as
    `movePrevious` / `moveNext` of the image and video providers compute it. */
module Navigation {

  /** `index <= 0 ? length - 1 : index - 1` */
  function Previous(index: int, length: nat): (r: int)
    ensures 0 <= index < length ==> 0 <= r < length
    ensures index <= 0 ==> r == length - 1
    ensures 0 < index ==> r == index - 1
  {
    if index <= 0 then length - 1 else index - 1
  }

  /** `index >= length - 1 ? 0 : index + 1` */
  function Next(index: int, length: nat): (r: int)
    ensures 0 <= index < length ==> 0 <= r < length
    ensures index >= length - 1 ==> r == 0
    ensures index < length - 1 ==> r == index + 1
  {
    if index >= length - 1 then 0 else index + 1
  }

  /** Inside the range, both steps are addition modulo the length. */
  lemma StepsAreModular(index: int, length: nat)
    requires 0 <= index < length
    ensures Next(index, length) == (index + 1) % length
    ensures Previous(index, length) == (index - 1 + length) % length
  {
    if index == length - 1 {
      ModUnique(index + 1, length, 1, 0);
    } else {
      ModUnique(index + 1, length, 0, index + 1);
    }
    if index == 0 {
      ModUnique(index - 1 + length, length, 0, length - 1);
    } else {
      ModUnique(index - 1 + length, length, 1, index - 1);
    }
  }

  /** The two steps undo each other on any in-range index. */
  lemma RoundTrip(index: int, length: nat)
    requires 0 <= index < length
    ensures Next(Previous(index, length), length) == index
    ensures Previous(Next(index, length), length) == index
  {
  }

  /** With no guard for the empty list, stepping from 0 over zero items
      gives -1 backwards and 0 forwards. */
  lemma EmptyList()
    ensures Previous(0, 0) == -1
    ensures Next(0, 0) == 0
  {
  }

  /** `moveNext` applied `k` times. */
  function NextTimes(index: int, length: nat, k: nat): int
  {
    if k == 0 then index else Next(NextTimes(index, length, k - 1), length)
  }

  /** `k` forward steps from an in-range index land on `(index + k) mod length`. */
  lemma {:induction false} NextTimesIsModular(index: int, length: nat, k: nat)
    requires 0 <= index < length
    ensures NextTimes(index, length, k) == (index + k) % length
  {
    if k > 0 {
      NextTimesIsModular(index, length, k - 1);
      var j := (index + k - 1) % length;
      StepsAreModular(j, length);
      ModSucc(index + k - 1, length);
    }
  }

  /** Division and remainder are determined by any decomposition `a == q * n + r` with `0 <= r < n`. */
  lemma ModUnique(a: int, n: int, q: int, r: int)
    requires n > 0 && 0 <= r < n && a == q * n + r
    ensures a % n == r
  {
    var d := q - a / n;
    assert d * n == a % n - r;
  }

  lemma ModSucc(a: nat, n: nat)
    requires n > 0
    ensures (a % n + 1) % n == (a + 1) % n
  {
    var q, r := a / n, a % n;
    if r + 1 < n {
      ModUnique(a + 1, n, q, r + 1);
      ModUnique(r + 1, n, 0, r + 1);
    } else {
      assert a + 1 == (q + 1) * n;
      ModUnique(a + 1, n, q + 1, 0);
      ModUnique(r + 1, n, 1, 0);
    }
  }

  /** Stepping forward once per item visits the whole list and returns to the start. */
  lemma FullCycle(index: int, length: nat)
    requires 0 <= index < length
    ensures NextTimes(index, length, length) == index
    ensures forall k: nat :: 0 < k < length ==> NextTimes(index, length, k) != index
  {
    NextTimesIsModular(index, length, length);
    ModUnique(index + length, length, 1, index);
    forall k: nat | 0 < k < length
      ensures NextTimes(index, length, k) != index
    {
      NextTimesIsModular(index, length, k);
      if index + k < length {
        ModUnique(index + k, length, 0, index + k);
      } else {
        ModUnique(index + k, length, 1, index + k - length);
      }
    }
  }
}
