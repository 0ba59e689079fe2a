/** The slide-index arithmetic both carousels share: `(i + 1) % n` and
    `(i - 1 + n) % n` with JavaScript's remainder operator. */
module Slides {
  import opened Js

  /** `(i + 1) % n`: the slide after `i`, wrapping from the last slide to the first. */
  function NextIndex(i: int, n: int): (r: int)
    requires n > 0
    ensures 0 <= i < n ==> 0 <= r < n
    ensures 0 <= i < n ==> r == (if i == n - 1 then 0 else i + 1)
  {
    Rem(i + 1, n)
  }

  /** `(i - 1 + n) % n`: the slide before `i`, wrapping from the first slide to the last. */
  function PrevIndex(i: int, n: int): (r: int)
    requires n > 0
    ensures 0 <= i < n ==> 0 <= r < n
    ensures 0 <= i < n ==> r == (if i == 0 then n - 1 else i - 1)
  {
    Rem(i - 1 + n, n)
  }

  /** Going forward and then back returns to the same slide. */
  lemma NextThenPrevious(i: int, n: int)
    requires 0 <= i < n
    ensures PrevIndex(NextIndex(i, n), n) == i
  {
  }

  /** Going back and then forward returns to the same slide. */
  lemma PreviousThenNext(i: int, n: int)
    requires 0 <= i < n
    ensures NextIndex(PrevIndex(i, n), n) == i
  {
  }

  /** The slide shown after `k` autoplay ticks starting from `i`. */
  function Advance(i: int, n: int, k: nat): int
    requires n > 0
  {
    if k == 0 then i else NextIndex(Advance(i, n, k - 1), n)
  }

  /** Each tick moves exactly one slide on, modulo the number of slides. */
  lemma {:induction false} AdvanceIsModular(i: int, n: int, k: nat)
    requires 0 <= i < n
    ensures Advance(i, n, k) == (i + k) % n
  {
    if k > 0 {
      AdvanceIsModular(i, n, k - 1);
      var j := (i + k - 1) % n;
      assert 0 <= j < n;
      ModularStep(i + k - 1, n);
    }
  }

  /** `(a + 1) % n` from `a % n`, one wrap at a time. */
  lemma ModularStep(a: int, n: int)
    requires a >= 0 && n > 0
    ensures (if a % n == n - 1 then 0 else a % n + 1) == (a + 1) % n
  {
    var q, r := a / n, a % n;
    assert a == q * n + r;
    if r == n - 1 {
      assert a + 1 == (q + 1) * n + 0;
      ModUnique(a + 1, n, q + 1, 0);
    } else {
      assert a + 1 == q * n + (r + 1);
      ModUnique(a + 1, n, q, r + 1);
    }
  }

  /** Euclidean division by `n > 0` has one remainder in `[0, n)`. */
  lemma ModUnique(x: int, n: int, q: int, r: int)
    requires n > 0 && x == q * n + r && 0 <= r < n
    ensures x % n == r
  {
    var q', r' := x / n, x % n;
    assert x == q' * n + r';
    Distrib(q, q', n);
    if q > q' {
      MulGe(q - q', n);
    } else if q < q' {
      Distrib(q', q, n);
      MulGe(q' - q, n);
    }
  }

  lemma Distrib(a: int, b: int, n: int)
    ensures a * n - b * n == (a - b) * n
  {
  }

  lemma {:induction false} MulGe(d: int, n: int)
    requires d >= 1 && n > 0
    ensures d * n >= n
    decreases d
  {
    if d > 1 {
      MulGe(d - 1, n);
      Distrib(d, 1, n);
    }
  }

  /** After `n` ticks every slide has been shown once and the carousel is back where it started. */
  lemma FullCycle(i: int, n: int)
    requires 0 <= i < n
    ensures Advance(i, n, n) == i
  {
    AdvanceIsModular(i, n, n);
    ModUnique(i + n, n, 1, i);
  }
}
