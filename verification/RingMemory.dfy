/** What sequences of writes leave in a 4 KiB memory walked upwards or downwards, wrapping at its ends. */
module RingMemory {
  import opened Bits
  import opened Words

  const SIZE: nat := 0x1000

  // ---- Addresses ----

  /** The address n steps away. */
  function Walk(q: nat, down: bool, n: nat): (r: nat)
    requires q < SIZE
    ensures r < SIZE
  {
    if n == 0 then q else
    var p := Walk(q, down, n - 1);
    if down then (if p == 0 then SIZE - 1 else p - 1) else (if p == SIZE - 1 then 0 else p + 1)
  }

  lemma {:induction false} WalkUp(q: nat, n: nat)
    requires q < SIZE
    ensures Walk(q, false, n) == (q + n) % SIZE
  {
    if n > 0 {
      WalkUp(q, n - 1);
      AddReduced(q + n - 1, 1, SIZE);
    }
  }

  /** Where the j-th write lands: downwards the address is stepped before each write, upwards after it. */
  function Landing(q: nat, down: bool, j: nat): (r: nat)
    requires q < SIZE
    ensures r < SIZE
  {
    Walk(q, down, if down then j + 1 else j)
  }

  lemma {:induction false} UpFromDown(q: nat, n: nat, k: nat)
    requires q < SIZE && k <= n
    ensures Walk(Walk(q, true, n), false, k) == Walk(q, true, n - k)
  {
    if k > 0 {
      UpFromDown(q, n, k - 1);
      assert Walk(q, true, n - k + 1) == if Walk(q, true, n - k) == 0 then SIZE - 1 else Walk(q, true, n - k) - 1;
    }
  }

  /** The first write that lands on an address. */
  function Slot(q: nat, down: bool, x: nat): (r: nat)
    requires q < SIZE && x < SIZE
    ensures r < SIZE
  {
    var d := if down then q - 1 - x else x - q;
    if d < 0 then d + SIZE else d
  }

  lemma {:induction false} SlotOfLanding(q: nat, down: bool, j: nat)
    requires q < SIZE
    ensures Slot(q, down, Landing(q, down, j)) == j % SIZE
  {
    if j > 0 {
      SlotOfLanding(q, down, j - 1);
      AddReduced(j - 1, 1, SIZE);
    } else if down {
      assert Walk(q, true, 1) == if Walk(q, true, 0) == 0 then SIZE - 1 else Walk(q, true, 0) - 1;
    }
  }

  lemma SlotUp(q: nat, x: nat)
    requires q < SIZE && x < SIZE
    ensures Slot(q, false, x) == (x - q) % SIZE
  {
  }

  lemma SlotsApart(q: nat, down: bool, x: nat, y: nat)
    requires q < SIZE && x < SIZE && y < SIZE && x != y
    ensures Slot(q, down, x) != Slot(q, down, y)
  {
  }

  // ---- Which of the writes sharing an address is the last ----

  /** The last of the first n positions congruent to d modulo the memory size, d itself being one. */
  function Newest(n: nat, d: nat): (r: nat)
    requires d < n
    ensures d <= r < n && r % SIZE == d % SIZE && n - SIZE <= r
    decreases n - d
  {
    if n - SIZE <= d then d else
    ModShift(d, SIZE, 1);
    Newest(n, d + SIZE)
  }

  lemma NewestIs(n: nat, d: nat, r: nat)
    requires d < n && r < n && n - SIZE <= r && r % SIZE == d % SIZE
    ensures Newest(n, d) == r
  {
    hide Newest;
    var q := Newest(n, d);
    assert q % SIZE == r % SIZE;
    SameResidueNear(q, r, SIZE);
  }

  lemma SameResidueNear(a: int, b: int, m: nat)
    requires m > 0 && a % m == b % m && a - b < m && b - a < m
    ensures a == b
  {
    assert a - b == m * (a / m - b / m);
    MulGap(m, a / m - b / m);
  }

  lemma SameNewest(n: nat, d: nat, e: nat)
    requires d < n && e < n && d == e % SIZE
    ensures Newest(n, d) == Newest(n, e)
  {
    hide Newest;
    NewestIs(n, d, Newest(n, e));
  }

  // ---- Writing in order ----

  /** Memory after writing vs from an address on. */
  function Written(data: seq<u8>, q: nat, down: bool, vs: seq<u8>): (r: seq<u8>)
    requires |data| == SIZE && q < SIZE
    ensures |r| == SIZE
  {
    if vs == [] then data
    else Written(data, q, down, vs[..|vs| - 1])[Landing(q, down, |vs| - 1) := vs[|vs| - 1]]
  }

  /** Each address holds the newest of the writes that share it, or what it held before. */
  ghost predicate Holds(data: seq<u8>, before: seq<u8>, vs: seq<u8>, q: nat, down: bool)
  {
    && |data| == SIZE && |before| == SIZE && q < SIZE
    && forall x: nat | x < SIZE :: data[x] == Held(before, vs, Slot(q, down, x), x)
  }

  function Held(before: seq<u8>, vs: seq<u8>, slot: nat, x: nat): u8
    requires x < |before|
  {
    if slot < |vs| then vs[Newest(|vs|, slot)] else before[x]
  }

  lemma {:induction false} WrittenHolds(data: seq<u8>, q: nat, down: bool, vs: seq<u8>)
    requires |data| == SIZE && q < SIZE
    ensures Holds(Written(data, q, down, vs), data, vs, q, down)
  {
    hide Newest, Slot, Landing;
    if vs != [] {
      var before, v := vs[..|vs| - 1], vs[|vs| - 1];
      WrittenHolds(data, q, down, before);
      SlotOfLanding(q, down, |before|);
      HoldsOneMore(Written(data, q, down, before), data, before, q, down, Landing(q, down, |before|), v);
      assert before + [v] == vs;
    }
  }

  /** One more write, at the address whose slot is the write's own position. */
  lemma HoldsOneMore(data: seq<u8>, before: seq<u8>, vs: seq<u8>, q: nat, down: bool, at: nat, v: u8)
    requires Holds(data, before, vs, q, down)
    requires at < SIZE && Slot(q, down, at) == |vs| % SIZE
    ensures Holds(data[at := v], before, vs + [v], q, down)
  {
    hide Newest, Slot;
    var n := |vs|;
    forall x: nat | x < SIZE
      ensures data[at := v][x] == Held(before, vs + [v], Slot(q, down, x), x)
    {
      var slot := Slot(q, down, x);
      if x == at {
        HoldsAtEnd(n, slot);
      } else {
        SlotsApart(q, down, x, at);
        if slot < n {
          SlotUnmoved(n, slot);
        } else if slot == n {
          SlotIsOwn(n);
        }
      }
    }
  }

  lemma HoldsAtEnd(n: nat, slot: nat)
    requires slot == n % SIZE
    ensures slot < n + 1 && Newest(n + 1, slot) == n
  {
    hide Newest;
    NewestIs(n + 1, slot, n);
  }

  lemma SlotIsOwn(n: nat)
    requires n < SIZE
    ensures n % SIZE == n
  {
  }

  lemma SlotUnmoved(n: nat, d: nat)
    requires d < n && d < SIZE && d != n % SIZE
    ensures Newest(n + 1, d) == Newest(n, d)
  {
    hide Newest;
    var r := Newest(n, d);
    assert r % SIZE == d;
    if r == n - SIZE {
      ModShift(n, SIZE, 0 - 1);
    }
    NewestIs(n + 1, d, r);
  }

  // ---- Reading it back ----

  /** The address of the j-th write holds the newest of the writes congruent to it. */
  lemma WrittenAt(data: seq<u8>, before: seq<u8>, vs: seq<u8>, q: nat, down: bool, j: nat)
    requires Holds(data, before, vs, q, down) && j < |vs|
    ensures data[Landing(q, down, j)] == vs[Newest(|vs|, j)]
    ensures |vs| <= SIZE ==> data[Landing(q, down, j)] == vs[j]
  {
    hide Newest, Slot, Landing;
    SlotOfLanding(q, down, j);
    assert j % SIZE <= j;
    SameNewest(|vs|, j % SIZE, j);
    if |vs| <= SIZE {
      NewestIs(|vs|, j, j);
    }
  }

  /** Reading upwards from where upward writes began. */
  lemma RingReads(data: seq<u8>, before: seq<u8>, vs: seq<u8>, q: nat, rs: seq<u8>)
    requires Holds(data, before, vs, q, false) && |rs| == |vs|
    requires forall k: nat | k < |vs| :: rs[k] == data[Walk(q, false, k)]
    ensures forall k: nat | k < |vs| :: rs[k] == vs[Newest(|vs|, k)]
    ensures |vs| <= SIZE ==> rs == vs
  {
    hide Newest, Walk, Holds;
    assert q < SIZE && |data| == SIZE by { HoldsSizes(data, before, vs, q, false); }
    forall k: nat | k < |vs|
      ensures rs[k] == vs[Newest(|vs|, k)] && (|vs| <= SIZE ==> rs[k] == vs[k])
    {
      WrittenAt(data, before, vs, q, false, k);
    }
  }

  lemma HoldsSizes(data: seq<u8>, before: seq<u8>, vs: seq<u8>, q: nat, down: bool)
    requires Holds(data, before, vs, q, down)
    ensures |data| == SIZE == |before| && q < SIZE
  {
  }

  /** Reading upwards from where downward writes ended. */
  lemma StackReads(data: seq<u8>, before: seq<u8>, vs: seq<u8>, q: nat, rs: seq<u8>)
    requires Holds(data, before, vs, q, true) && |rs| == |vs|
    requires forall k: nat | k < |vs| :: rs[k] == data[Walk(Walk(q, true, |vs|), false, k)]
    ensures forall k: nat | k < |vs| :: rs[k] == vs[Newest(|vs|, |vs| - 1 - k)]
    ensures |vs| <= SIZE ==> forall k: nat | k < |vs| :: rs[k] == vs[|vs| - 1 - k]
  {
    hide Newest, Walk, Holds;
    HoldsSizes(data, before, vs, q, true);
    forall k: nat | k < |vs|
      ensures rs[k] == vs[Newest(|vs|, |vs| - 1 - k)] && (|vs| <= SIZE ==> rs[k] == vs[|vs| - 1 - k])
    {
      UpFromDown(q, |vs|, k);
      WrittenAt(data, before, vs, q, true, |vs| - 1 - k);
    }
  }
}
