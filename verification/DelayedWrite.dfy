/** The Supercharger's delayed write over whole histories: which access stores, exactly, at every count. */
module DelayedWrite {
  import opened Words
  import opened Supercharger

  // ---- The latch follows the bus alone ----

  function LatchStep(l: Latch, a: Access): Latch
  {
    if IsCart(a) then Handle(Note(l), a.Line()) else Note(l)
  }

  function LatchRun(l: Latch, h: seq<Access>): Latch
  {
    if h == [] then l else LatchStep(LatchRun(l, h[..|h| - 1]), h[|h| - 1])
  }

  lemma {:induction false} LatchFollows(s: Console, h: seq<Access>)
    requires s.Valid()
    ensures Run(s, h).board.latch == LatchRun(s.board.latch, h)
  {
    hide Note, Handle, Stores, ApplyPokes, LoadIntoRam;
    if h != [] {
      LatchFollows(s, h[..|h| - 1]);
    }
  }

  /** The board's counter is the number of bus accesses, whatever they were. */
  lemma {:induction false} CounterCountsAccesses(l: Latch, h: seq<Access>)
    requires l.count == 0
    ensures LatchRun(l, h).count == |h| % U32
  {
    if h != [] {
      CounterCountsAccesses(l, h[..|h| - 1]);
      HandleKeepsCount(Note(LatchRun(l, h[..|h| - 1])), h[|h| - 1].Line());
      NextCount(|h| - 1);
    }
  }

  lemma HandleKeepsCount(l: Latch, addr: u16)
    ensures Handle(l, addr).count == l.count
  {
  }

  lemma NextCount(n: nat)
    ensures (n % U32 + 1) % U32 == (n + 1) % U32
  {
  }

  // ---- The window of five ----

  /** The count recorded by the i-th access of a history. */
  function CountAt(i: nat): u32 { (i + 1) % U32 }

  /** Counts whose limit, five more, has wrapped below the count itself: the next access cancels the write. */
  predicate CancelledAtOnce(x: u32) { U32 - 5 <= x <= U32 - 2 }

  /** The count whose limit is the largest one: no access ever exceeds it. */
  const ENDLESS: u32 := U32 - 6

  predicate SafeHold(x: u32) { x != ENDLESS && !CancelledAtOnce(x) }

  /** A pending write is dropped by the sixth access after its hold and by none before: exactly for safe holds. */
  lemma WindowExactness(l: Latch)
    requires l.pending
    ensures (forall d: nat | 1 <= d <= 6 :: PendingAfter(l, d) <==> d <= 5) <==> SafeHold(l.atHold)
  {
    hide PendingAfter;
    forall d: nat | 1 <= d <= 6
      ensures PendingAfter(l, d) <==> !(Add32(l.atHold, d) > Add32(l.atHold, 5))
    {
      PendingWithinLimit(l, d);
      LimitAfter(l.atHold, d);
    }
    LimitAfter(l.atHold, 6);
    LimitAfter(l.atHold, 1);
    if SafeHold(l.atHold) {
      forall d: nat | 1 <= d <= 6
        ensures PendingAfter(l, d) <==> d <= 5
      {
        LimitAfter(l.atHold, d);
      }
    } else if l.atHold == ENDLESS {
      assert PendingAfter(l, 6);
    } else {
      assert !PendingAfter(l, 1);
    }
  }

  lemma PendingWithinLimit(l: Latch, d: nat)
    requires l.pending && d >= 1
    ensures PendingAfter(l, d) <==> !(Add32(l.atHold, d) > Add32(l.atHold, 5))
  {
  }

  /** Whether a pending write survives the count of the d-th access after its hold. */
  predicate PendingAfter(l: Latch, d: nat)
  {
    Note(l.(count := Add32(l.atHold, d - 1))).pending
  }

  /** Whether d accesses after a hold at count x the limit is not yet exceeded. */
  lemma LimitAfter(x: u32, d: nat)
    requires d >= 1
    ensures x == ENDLESS ==> !(Add32(x, d) > Add32(x, 5))
    ensures CancelledAtOnce(x) && d == 1 ==> Add32(x, d) > Add32(x, 5)
    ensures SafeHold(x) && d <= 6 ==> (Add32(x, d) > Add32(x, 5) <==> d == 6)
  {
  }

  /** The access d after the hold is due exactly when d is 5, up to wrap-around of the counter. */
  lemma DueAfter(x: u32, d: nat)
    ensures Add32(x, d) == Add32(x, 5) <==> IsFifth(d)
  {
    FifthModulo(d);
    ModOfSum(x, d);
  }

  lemma ModOfSum(x: u32, d: nat)
    ensures Add32(x, d) == Add32(x, d % U32)
  {
    var q, r := d / U32, d % U32;
    assert x + d == x + r + U32 * q;
    assert (x + r + U32 * q) % U32 == (x + r) % U32;
  }

  lemma CountFromHold(i: nat, d: nat)
    ensures Add32(CountAt(i), d) == (i + 1 + d) % U32
  {
  }

  // ---- Which access armed a pending write ----

  /** The i-th access of the history latched its address. */
  ghost predicate Armed(l: Latch, h: seq<Access>, i: nat)
    requires i < |h|
  {
    IsCart(h[i]) && Latches(Note(LatchRun(l, h[..i])), h[i].Line())
  }

  /** The last access that latched, or -1. */
  ghost function LastArmed(l: Latch, h: seq<Access>): (i: int)
    ensures -1 <= i < |h|
  {
    if h == [] then -1
    else if Armed(l, h, |h| - 1) then |h| - 1
    else LastArmed(l, h[..|h| - 1])
  }

  lemma ArmedInPrefix(l: Latch, h: seq<Access>, k: nat, i: nat)
    requires i < k <= |h|
    ensures Armed(l, h[..k], i) == Armed(l, h, i)
  {
    assert h[..k][..i] == h[..i];
  }

  lemma {:induction false} LastArmedIsLast(l: Latch, h: seq<Access>, k: nat)
    requires LastArmed(l, h) < k < |h|
    ensures !Armed(l, h, k)
  {
    hide Armed;
    if k < |h| - 1 {
      LastArmedIsLast(l, h[..|h| - 1], k);
      ArmedInPrefix(l, h, |h| - 1, k);
    }
  }

  predicate IsConfig(a: Access) { a.Line() == CONFIG }

  ghost predicate NoConfigAfter(h: seq<Access>, i: nat)
  {
    forall k | i < k < |h| :: !IsConfig(h[k])
  }

  /** The limit of a write armed by access i has not been exceeded by the end of the history. */
  predicate InTime(h: seq<Access>, i: nat)
  {
    CountAt(i) == ENDLESS || |h| == i + 1 || (!CancelledAtOnce(CountAt(i)) && |h| <= i + 6)
  }

  /** d is five, up to wrap-around of the counter. */
  predicate IsFifth(d: nat)
  {
    if d < U32 then d == 5 else IsFifth(d - U32)
  }

  lemma {:induction false} FifthModulo(d: nat)
    ensures IsFifth(d) <==> d % U32 == 5
  {
    if d >= U32 {
      FifthModulo(d - U32);
    }
  }

  /** No cartridge access came exactly five after access i, up to wrap-around of the counter. */
  ghost predicate NotYetDue(h: seq<Access>, i: nat)
  {
    forall j | i < j < |h| && IsFifth(j - i) :: !IsCart(h[j])
  }

  /** A pending write was armed by the last access that latched, is in time, and nothing reconfigured since. */
  lemma {:induction false} PendingMeans(l: Latch, h: seq<Access>)
    requires l.count == 0 && !l.pending && LatchRun(l, h).pending
    ensures var i, m := LastArmed(l, h), LatchRun(l, h);
      && 0 <= i && NoConfigAfter(h, i) && InTime(h, i) && (m.writeEnabled ==> NotYetDue(h, i))
      && m.atHold == CountAt(i) && m.hold == h[i].Line() % 0x100
  {
    hide Note, Handle, InTime, CountAt, Add32, Latches;
    var before, a := h[..|h| - 1], h[|h| - 1];
    var m := LatchRun(l, before);
    CounterCountsAccesses(l, before);
    if Armed(l, h, |h| - 1) {
      JustLatched(m, a, |h| - 1);
      JustArmed(h);
    } else {
      StillPending(m, a);
      PendingMeans(l, before);
      OneMore(l, h, LastArmed(l, before));
    }
  }

  lemma JustLatched(l: Latch, a: Access, n: nat)
    requires l.count == n % U32 && IsCart(a) && Latches(Note(l), a.Line())
    ensures var m := LatchStep(l, a); m.pending && m.atHold == CountAt(n) && m.hold == a.Line() % 0x100
  {
    NextCount(n);
  }

  lemma JustArmed(h: seq<Access>)
    requires h != []
    ensures InTime(h, |h| - 1)
  {
  }

  lemma StillPending(l: Latch, a: Access)
    requires LatchStep(l, a).pending && !(IsCart(a) && Latches(Note(l), a.Line()))
    ensures !IsConfig(a) && l.pending
    ensures LatchStep(l, a) == l.(count := Add32(l.count, 1))
    ensures !(Add32(l.count, 1) > Add32(l.atHold, 5))
    ensures IsCart(a) && l.writeEnabled ==> Add32(l.count, 1) != Add32(l.atHold, 5)
  {
  }

  /** One access more, the limit not exceeded by it. */
  lemma InTimeStep(h: seq<Access>, i: nat)
    requires i < |h| - 1 && InTime(h[..|h| - 1], i)
    ensures InTime(h, i) <==> !(Add32(CountAt(i), |h| - 1 - i) > Add32(CountAt(i), 5))
  {
    hide CountAt, Add32;
    LimitAfter(CountAt(i), |h| - 1 - i);
  }

  /** The two tests the last access of a history makes on a write armed by access i. */
  lemma OneMore(l: Latch, h: seq<Access>, i: nat)
    requires l.count == 0 && i < |h| - 1 && InTime(h[..|h| - 1], i)
    requires LatchRun(l, h[..|h| - 1]).atHold == CountAt(i)
    ensures var m := LatchRun(l, h[..|h| - 1]);
      && (InTime(h, i) <==> !(Add32(m.count, 1) > Add32(m.atHold, 5)))
      && (IsFifth(|h| - 1 - i) <==> Add32(m.count, 1) == Add32(m.atHold, 5))
  {
    hide InTime, CountAt, LatchRun;
    CounterCountsAccesses(l, h[..|h| - 1]);
    NextCount(|h| - 1);
    CountFromHold(i, |h| - 1 - i);
    InTimeStep(h, i);
    DueAfter(CountAt(i), |h| - 1 - i);
  }

  /** With writes enabled, an armed write in time and not yet due is pending. */
  lemma {:induction false} StaysPending(l: Latch, h: seq<Access>)
    requires l.count == 0
    requires var i := LastArmed(l, h); 0 <= i && NoConfigAfter(h, i) && InTime(h, i) && NotYetDue(h, i)
    requires LatchRun(l, h).writeEnabled
    ensures var i, m := LastArmed(l, h), LatchRun(l, h);
      m.pending && m.atHold == CountAt(i) && m.hold == h[i].Line() % 0x100
  {
    hide Note, Handle, InTime, CountAt, Add32, Latches;
    var before, a := h[..|h| - 1], h[|h| - 1];
    var m := LatchRun(l, before);
    CounterCountsAccesses(l, before);
    if Armed(l, h, |h| - 1) {
      JustLatched(m, a, |h| - 1);
    } else {
      var i := LastArmed(l, before);
      assert !IsConfig(a);
      StepKeepsEnabled(m, a);
      InTimeBefore(h, i);
      StaysPending(l, before);
      OneMore(l, h, i);
      NotDropped(m, a);
    }
  }

  lemma InTimeBefore(h: seq<Access>, i: nat)
    requires i < |h| - 1 && InTime(h, i)
    ensures InTime(h[..|h| - 1], i)
  {
  }

  lemma StepKeepsEnabled(l: Latch, a: Access)
    requires !IsConfig(a)
    ensures LatchStep(l, a).writeEnabled == l.writeEnabled
  {
  }

  lemma NotDropped(l: Latch, a: Access)
    requires l.pending && l.writeEnabled && !IsConfig(a) && !(Add32(l.count, 1) > Add32(l.atHold, 5))
    requires IsCart(a) ==> Add32(l.count, 1) != Add32(l.atHold, 5)
    ensures LatchStep(l, a) == l.(count := Add32(l.count, 1)) && !Latches(Note(l), a.Line())
  {
  }

  // ---- Which access stores ----

  /** Writing is enabled, no reconfiguration since access i, and the next access addresses RAM. */
  ghost predicate Open(l: Latch, h: seq<Access>, a: Access, i: nat)
  {
    NoConfigAfter(h, i) && !IsConfig(a) && LatchRun(l, h).writeEnabled && WindowIsRam(LatchRun(l, h), a.Line())
  }

  /** What decides a store on the access after h, at any count. */
  ghost predicate StoreDue(l: Latch, h: seq<Access>, a: Access)
  {
    var i := LastArmed(l, h);
    0 <= i && IsFifth(|h| - i) && InTime(h, i) && NotYetDue(h, i) && Open(l, h, a, i)
  }

  /**
   For every history, of any length: a cartridge access stores to RAM if and only if the last access to latch
   did so exactly five accesses before (counted modulo 2^32), in time, with no $1FF8 access since, writing
   enabled and RAM addressed. The byte is the low byte of the arming address.
   */
  lemma StoresExactly(l: Latch, h: seq<Access>, a: Access)
    requires l.count == 0 && !l.pending && IsCart(a)
    ensures Stores(Note(LatchRun(l, h)), a.Line()) <==> StoreDue(l, h, a)
    ensures StoreDue(l, h, a) ==> LatchRun(l, h).hold == h[LastArmed(l, h)].Line() % 0x100
  {
    hide Armed, LatchRun, Stores, Note, WindowIsRam, InTime, CountAt;
    CounterCountsAccesses(l, h);
    var m := LatchRun(l, h);
    var i := LastArmed(l, h);
    if Stores(Note(m), a.Line()) {
      StoreMeans(m, a);
      PendingMeans(l, h);
      CountFromHold(i, |h| - i);
      DueAfter(CountAt(i), |h| - i);
      NextCount(|h|);
    } else if StoreDue(l, h, a) {
      StaysPending(l, h);
      CountFromHold(i, |h| - i);
      DueAfter(CountAt(i), |h| - i);
      NextCount(|h|);
      DueNow(m, a);
    }
    if StoreDue(l, h, a) {
      StaysPending(l, h);
    }
  }

  lemma StoreMeans(l: Latch, a: Access)
    requires Stores(Note(l), a.Line())
    ensures l.pending && l.writeEnabled && !IsConfig(a) && WindowIsRam(l, a.Line())
    ensures Add32(l.count, 1) == Add32(l.atHold, 5)
  {
  }

  lemma DueNow(l: Latch, a: Access)
    requires l.pending && l.writeEnabled && !IsConfig(a) && WindowIsRam(l, a.Line())
    requires Add32(l.count, 1) == Add32(l.atHold, 5)
    ensures Stores(Note(l), a.Line())
  {
  }

  // ---- The intended rule, and where the code departs from it ----

  /** The rule the board is meant to follow: the access five before this one armed the write. */
  ghost predicate FifthAfterArming(l: Latch, h: seq<Access>, a: Access)
  {
    |h| >= 5 && Armed(l, h, |h| - 5) && Open(l, h, a, |h| - 5)
  }

  /** An arming at the endless count, 2^32 or a multiple of it too long ago, nothing having used it up. */
  ghost predicate Overdue(l: Latch, h: seq<Access>, a: Access)
  {
    var i := LastArmed(l, h);
    && 0 <= i < |h| - 5 && CountAt(i) == ENDLESS && IsFifth(|h| - i)
    && NotYetDue(h, i) && Open(l, h, a, i)
  }

  lemma {:induction false} EnabledSince(l: Latch, h: seq<Access>, k: nat)
    requires k <= |h| && forall j | k <= j < |h| :: !IsConfig(h[j])
    ensures LatchRun(l, h).writeEnabled == LatchRun(l, h[..k]).writeEnabled
    decreases |h|
  {
    if |h| == k {
      assert h[..k] == h;
    } else {
      var before := h[..|h| - 1];
      EnabledSince(l, before, k);
      assert before[..k] == h[..k];
      StepKeepsEnabled(LatchRun(l, before), h[|h| - 1]);
    }
  }

  /** While an armed write is pending, nothing else latches. */
  lemma {:induction false} NothingArmsMeanwhile(l: Latch, h: seq<Access>, i: nat)
    requires l.count == 0 && i < |h| <= i + 5 && Armed(l, h, i) && NoConfigAfter(h, i)
    requires !CancelledAtOnce(CountAt(i)) && LatchRun(l, h).writeEnabled
    ensures LastArmed(l, h) == i
    decreases |h|
  {
    hide Note, Handle, CountAt, CancelledAtOnce, Latches;
    var before, a := h[..|h| - 1], h[|h| - 1];
    if i < |h| - 1 {
      ArmedInPrefix(l, h, |h| - 1, i);
      var m := LatchRun(l, before);
      assert !IsConfig(a);
      StepKeepsEnabled(m, a);
      NothingArmsMeanwhile(l, before, i);
      StaysPending(l, before);
      OneMore(l, h, i);
      NotDropped(m, a);
    }
  }

  /** A write armed at a count that is cancelled at once is never stored five accesses later. */
  lemma CancelledIsLost(l: Latch, h: seq<Access>, a: Access)
    requires FifthAfterArming(l, h, a) && CancelledAtOnce(CountAt(|h| - 5))
    ensures !StoreDue(l, h, a)
  {
    hide Armed, Open, NotYetDue;
    var i := LastArmed(l, h);
    if i < |h| - 5 {
      LastArmedIsLast(l, h, |h| - 5);
    }
  }

  /**
   The code follows the intended rule on the access after h if and only if the write armed five accesses
   before was not one whose limit wrapped, and no write armed at the endless count is overdue.
   */
  lemma DelayedWriteExactly(l: Latch, h: seq<Access>, a: Access)
    requires l.count == 0 && !l.pending && IsCart(a)
    ensures (Stores(Note(LatchRun(l, h)), a.Line()) <==> FifthAfterArming(l, h, a))
            <==> !(FifthAfterArming(l, h, a) && CancelledAtOnce(CountAt(|h| - 5))) && !Overdue(l, h, a)
  {
    hide Stores, Note, Armed, LatchRun, NotYetDue, CountAt, CancelledAtOnce;
    StoresExactly(l, h, a);
    if FifthAfterArming(l, h, a) {
      if CancelledAtOnce(CountAt(|h| - 5)) {
        CancelledIsLost(l, h, a);
      } else {
        NothingArmsMeanwhile(l, h, |h| - 5);
        FiveIsInTime(h);
      }
    } else if StoreDue(l, h, a) {
      OverdueOrFifth(l, h, a);
    }
    OverdueIsNotFifth(l, h, a);
  }

  lemma OverdueIsNotFifth(l: Latch, h: seq<Access>, a: Access)
    ensures !(Overdue(l, h, a) && FifthAfterArming(l, h, a))
  {
    hide Armed, Open, NotYetDue;
    if 0 <= LastArmed(l, h) < |h| - 5 {
      LastArmedIsLast(l, h, |h| - 5);
    }
  }

  lemma FiveIsInTime(h: seq<Access>)
    requires |h| >= 5 && !CancelledAtOnce(CountAt(|h| - 5))
    ensures InTime(h, |h| - 5) && NotYetDue(h, |h| - 5)
  {
  }

  lemma {:induction false} LastArmedIsArmed(l: Latch, h: seq<Access>)
    requires LastArmed(l, h) >= 0
    ensures Armed(l, h, LastArmed(l, h))
  {
    hide Armed;
    if !Armed(l, h, |h| - 1) {
      LastArmedIsArmed(l, h[..|h| - 1]);
      ArmedInPrefix(l, h, |h| - 1, LastArmed(l, h));
    }
  }

  lemma OverdueOrFifth(l: Latch, h: seq<Access>, a: Access)
    requires StoreDue(l, h, a)
    ensures FifthAfterArming(l, h, a) || Overdue(l, h, a)
  {
    hide Armed, Open, NotYetDue;
    var i := LastArmed(l, h);
    LastArmedIsArmed(l, h);
    if |h| - i != 5 {
      FifthModulo(|h| - i);
      assert |h| - i >= 5 + U32;
    }
  }

  /** No access latched at a count from which the five-access limit wraps. */
  ghost predicate SafeRun(l: Latch, h: seq<Access>)
  {
    forall i: nat | i < |h| && Armed(l, h, i) :: SafeHold(CountAt(i))
  }

  /** Histories shorter than 2^32 - 6 are always safe. */
  lemma ShortRunsAreSafe(l: Latch, h: seq<Access>)
    requires |h| < U32 - 6
    ensures SafeRun(l, h)
  {
  }

  /** On safe histories the intended rule is what happens. */
  lemma DelayedWriteWhenSafe(l: Latch, h: seq<Access>, a: Access)
    requires l.count == 0 && !l.pending && IsCart(a) && SafeRun(l, h)
    ensures Stores(Note(LatchRun(l, h)), a.Line()) <==> FifthAfterArming(l, h, a)
  {
    hide Stores, Note, Armed, LatchRun, NotYetDue, CountAt, LastArmed;
    DelayedWriteExactly(l, h, a);
    if Overdue(l, h, a) {
      LastArmedIsArmed(l, h);
    }
  }

  // ---- Histories that reach the departures ----

  /** n reads of the console. */
  function Idles(n: nat): seq<Access> { seq(n, i => Read(0x0000, 0)) }

  /** Idling changes nothing but the count while no write is pending. */
  lemma {:induction false} IdleKeeps(l: Latch, h: seq<Access>, n: nat)
    requires !LatchRun(l, h).pending
    ensures LatchRun(l, h + Idles(n)) == LatchRun(l, h).(count := LatchRun(l, h + Idles(n)).count)
  {
    if n == 0 {
      assert h + Idles(0) == h;
    } else {
      IdleKeeps(l, h, n - 1);
      assert (h + Idles(n))[..|h| + n - 1] == h + Idles(n - 1);
    }
  }

  lemma {:induction false} IdlesArmNothing(l: Latch, h: seq<Access>, n: nat)
    ensures LastArmed(l, h + Idles(n)) == LastArmed(l, h)
  {
    hide LatchRun, Latches;
    if n == 0 {
      assert h + Idles(0) == h;
    } else {
      IdlesArmNothing(l, h, n - 1);
      assert (h + Idles(n))[..|h| + n - 1] == h + Idles(n - 1);
    }
  }

  /** Enables writing: a latch of configuration 2, then $1FF8. */
  const ENABLE: seq<Access> := [Read(0x1002, 0), Read(0x1FF8, 0)]

  /** Writes enabled, then idle until the access that latches $55 does so at count x. */
  function LatchAt(x: u32): seq<Access>
    requires x >= 3
  {
    ENABLE + Idles(x - 3) + [Read(0x1055, 0)]
  }

  lemma Enabled()
    ensures var m := LatchRun(RESET_LATCH, ENABLE);
      !m.pending && m.writeEnabled && m.count == 2 && m.offset1 == RAM
  {
    assert ENABLE[..1] == [Read(0x1002, 0)] && ENABLE[..1][..0] == [];
    assert LatchRun(RESET_LATCH, ENABLE[..1]).hold == 2;
  }

  lemma LatchesAt(x: u32)
    requires x >= 3
    ensures var h := LatchAt(x);
      |h| == x && Armed(RESET_LATCH, h, x - 1) && LatchRun(RESET_LATCH, h).writeEnabled
  {
    hide LatchRun;
    var h, before := LatchAt(x), ENABLE + Idles(x - 3);
    assert h[..x - 1] == before;
    Enabled();
    IdleKeeps(RESET_LATCH, ENABLE, x - 3);
    LatchKeepsEnabled(before, Read(0x1055, 0));
  }

  lemma LatchKeepsEnabled(h: seq<Access>, a: Access)
    requires !IsConfig(a)
    ensures LatchRun(RESET_LATCH, h + [a]).writeEnabled == LatchRun(RESET_LATCH, h).writeEnabled
  {
    assert (h + [a])[..|h|] == h;
    StepKeepsEnabled(LatchRun(RESET_LATCH, h), a);
  }

  /** A history that latches at count x and idles n accesses: what holds at its end. */
  lemma LatchedThenIdle(x: u32, n: nat)
    requires x >= 3
    ensures var h := LatchAt(x) + Idles(n);
      && LastArmed(RESET_LATCH, h) == x - 1 && Armed(RESET_LATCH, h, x - 1)
      && NoConfigAfter(h, x - 1) && NotYetDue(h, x - 1) && LatchRun(RESET_LATCH, h).writeEnabled
  {
    hide LatchRun, Armed;
    var g := LatchAt(x);
    var h := g + Idles(n);
    LatchesAt(x);
    assert h[..x] == g && g[..x] == g;
    ArmedInPrefix(RESET_LATCH, h, x, x - 1);
    IdlesArmNothing(RESET_LATCH, g, n);
    assert forall k | x - 1 < k < |h| :: h[k] == Read(0x0000, 0);
    EnabledSince(RESET_LATCH, h, x);
  }

  const STORE: Access := Write(0x1234, 0)

  /** At each of four counts a run reaches a write that ought to be stored and is not. */
  lemma LostWrite(x: u32)
    requires CancelledAtOnce(x)
    ensures var h := LatchAt(x) + Idles(4);
      FifthAfterArming(RESET_LATCH, h, STORE) && !Stores(Note(LatchRun(RESET_LATCH, h)), STORE.Line())
  {
    hide LatchRun, Stores, Note, LatchAt, Armed;
    var h := LatchAt(x) + Idles(4);
    LatchedThenIdle(x, 4);
    LatchesAt(x);
    CancelledIsLost(RESET_LATCH, h, STORE);
    StoresExactly(RESET_LATCH, h, STORE);
  }

  /** At the endless count a write is still pending after any number of idle accesses, six included. */
  lemma NeverDropped(n: nat)
    ensures LatchRun(RESET_LATCH, LatchAt(ENDLESS) + Idles(n)).pending
  {
    hide LatchRun, LatchAt, Armed;
    LatchedThenIdle(ENDLESS, n);
    StaysPending(RESET_LATCH, LatchAt(ENDLESS) + Idles(n));
  }

  /** And the write is then carried out by an access 2^32 + 5 later, which the intended rule does not allow. */
  lemma LateWrite()
    ensures var h := LatchAt(ENDLESS) + Idles(U32 + 4);
      !FifthAfterArming(RESET_LATCH, h, STORE) && Stores(Note(LatchRun(RESET_LATCH, h)), STORE.Line())
  {
    hide LatchRun, Stores, Note, LatchAt, Armed;
    var h := LatchAt(ENDLESS) + Idles(U32 + 4);
    LatchedThenIdle(ENDLESS, U32 + 4);
    LatchesAt(ENDLESS);
    LastArmedIsLast(RESET_LATCH, h, |h| - 5);
    FifthModulo(U32 + 5);
    StoresExactly(RESET_LATCH, h, STORE);
  }
}
