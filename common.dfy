// Shared vocabulary of the host passes: image extents, image views handed
// between passes, and the wrap-around cursor every output ring uses.

module Common {

  datatype Option<T> = None | Some(value: T)

  /** A `vk::Extent2D`: unsigned 32-bit width and height, kept as `nat`. */
  datatype Extent = Extent(width: nat, height: nat)

  const ZeroExtent: Extent := Extent(0, 0)

  /** The view a pass returns: the null view `{}`, a view owned by the caller,
      or the view of slot `slot` of the pass's own output ring. */
  datatype ImageView = NullView | ExternalView(handle: nat) | SlotView(slot: nat)

  /** Cursor after `cur` in a ring of `n` slots, written as the passes write
      `(cur + 1) % n` or `if (++cur >= n) cur = 0`. */
  function Next(cur: nat, n: nat): (r: nat)
    requires cur < n
    ensures r < n
    ensures r == (cur + 1) % n
  {
    NextWraps(cur, n);
    if cur + 1 >= n then 0 else cur + 1
  }

  /** `(cur + 1) % n` only ever wraps at `n` itself. */
  lemma NextWraps(cur: nat, n: nat)
    requires cur < n
    ensures (cur + 1) % n == if cur + 1 == n then 0 else cur + 1
  {
    var q := (cur + 1) / n;
    assert q * n + (cur + 1) % n == cur + 1;
    if q >= 1 {
      assert q * n >= n;
    }
  }

  /** Slot before `cur`, wrapping to the last slot. */
  function Prev(cur: nat, n: nat): (r: nat)
    requires cur < n
    ensures r < n && Next(r, n) == cur
  {
    if cur == 0 then n - 1 else cur - 1
  }

  /** How many `Next` steps lead from `c` to `i` in a ring of `n` slots. */
  function Dist(c: nat, i: nat, n: nat): (d: nat)
    requires c < n && i < n
    ensures d < n
  {
    if i >= c then i - c else i + n - c
  }

  /** One step of the cursor brings every other slot one step closer and
      leaves the slot it came from furthest away. */
  lemma DistNext(c: nat, i: nat, n: nat)
    requires c < n && i < n
    ensures i != c ==> Dist(Next(c, n), i, n) == Dist(c, i, n) - 1
    ensures Dist(Next(c, n), c, n) == n - 1
  {
  }

  function MinNat(a: nat, b: nat): nat { if a <= b then a else b }

  /** The slot reached from `c` after `j` steps. */
  function RingAt(c: nat, j: nat, n: nat): (r: nat)
    requires c < n && j < n
    ensures r < n && Dist(c, r, n) == j
  {
    if c + j < n then c + j else c + j - n
  }

  /** The slots a cursor starting at `c` visits in `m` steps, in order. */
  function Ring(c: nat, m: nat, n: nat): (r: seq<nat>)
    requires c < n
    ensures |r| == m
    decreases m
  {
    if m == 0 then [] else [c] + Ring(Next(c, n), m - 1, n)
  }

  lemma {:induction false} RingIndex(c: nat, m: nat, n: nat, j: nat)
    requires c < n && j < m <= n
    ensures Ring(c, m, n)[j] == RingAt(c, j, n)
    decreases m
  {
    if j > 0 {
      RingIndex(Next(c, n), m - 1, n, j - 1);
    }
  }

  /** `n` steps of a ring cursor visit every slot exactly once. */
  lemma RingVisitsEverySlotOnce(c: nat, n: nat)
    requires c < n
    ensures |Ring(c, n, n)| == n
    ensures forall i :: 0 <= i < n ==> i in Ring(c, n, n)
    ensures forall j1, j2 :: 0 <= j1 < j2 < n ==> Ring(c, n, n)[j1] != Ring(c, n, n)[j2]
  {
    var r := Ring(c, n, n);
    forall i | 0 <= i < n ensures i in r {
      RingIndex(c, n, n, Dist(c, i, n));
    }
    forall j1, j2 | 0 <= j1 < j2 < n ensures r[j1] != r[j2] {
      RingIndex(c, n, n, j1);
      RingIndex(c, n, n, j2);
    }
  }

  /** A positive scale factor `num / den`. */
  datatype Ratio = Ratio(num: nat, den: nat)

  /** `static_cast<u32>(d / scale)`: the quotient truncated toward zero. */
  function Truncate(d: nat, scale: Ratio): (r: nat)
    requires scale.num >= scale.den > 0
    ensures r * scale.num <= d * scale.den < (r + 1) * scale.num
    ensures r <= d
  {
    QuotientBounds(d, scale.num, scale.den);
    (d * scale.den) / scale.num
  }

  /** Dividing a positive extent by a scale above one truncates to
      something smaller. */
  lemma TruncateShrinks(d: nat, scale: Ratio)
    requires scale.num > scale.den > 0
    ensures d > 0 ==> Truncate(d, scale) < d
  {
    if d > 0 {
      var r := Truncate(d, scale);
      assert r * scale.num <= d * scale.den < d * scale.num;
    }
  }

  /** The truncated quotient `d * den / num` brackets the exact one and,
      for a scale of at least one, does not exceed `d`. */
  lemma QuotientBounds(d: nat, num: nat, den: nat)
    requires num >= den > 0
    ensures (d * den) / num * num <= d * den < ((d * den) / num + 1) * num
    ensures (d * den) / num <= d
  {
    var q := (d * den) / num;
    assert q * num <= d * den;
    assert q * den <= q * num;
  }
}
