/** Index and space arithmetic of the sample ring, shared by the queue and its step machine. */
module RingArithmetic {
  import opened Words
  import opened Bits

  /** An f32 sample as its bit pattern; silence is 0.0, whose pattern is 0. */
  type Sample = u32

  const SILENCE: Sample := 0

  function WrappingAdd(a: u64, b: nat): u64 { Add64(a, b) }

  function WrappingSub(a: u64, b: u64): u64 { (a - b) % 0x1_0000_0000_0000_0000 }

  /** `counter & mask`. */
  function Masked(counter: u64, mask: nat): (r: nat)
    ensures r <= mask
  {
    And(counter, mask)
  }

  /** Whether a pop may take samples: already playing, or the start threshold is met. */
  predicate MayPlay(playing: bool, avail: nat, threshold: nat)
  {
    playing || (avail >= threshold && (avail > 0 || threshold == 0))
  }

  /** Capacity 2^k with 1 <= k <= 63: at least two slots, and the counters wrap a whole number of times. */
  ghost predicate ValidCapacity(cap: nat)
  {
    exists k: nat :: 1 <= k <= 63 && cap == Pow2(k)
  }

  lemma CapacityBounds(cap: nat)
    requires ValidCapacity(cap)
    ensures 2 <= cap < U64
  {
    var k: nat :| 1 <= k <= 63 && cap == Pow2(k);
    Pow2At64();
    Pow2Grows(1, k);
    Pow2Grows(k, 63);
  }

  lemma CapacityDivides(cap: nat) returns (q: nat)
    requires ValidCapacity(cap)
    ensures q > 0 && U64 == cap * q
  {
    var k: nat :| 1 <= k <= 63 && cap == Pow2(k);
    Pow2Adds(k, 64 - k);
    Pow2At64();
    q := Pow2(64 - k);
  }

  /** A masked wrapped counter is the unbounded counter modulo the capacity. */
  lemma SlotOfWrapped(u: nat, i: nat, cap: nat)
    requires ValidCapacity(cap)
    ensures Masked(WrappingAdd(u % U64, i), cap - 1) == (u + i) % cap
  {
    var k: nat :| 1 <= k <= 63 && cap == Pow2(k);
    AndMask(WrappingAdd(u % U64, i), k);
    AddReduced(u, i, U64);
    var q := CapacityDivides(cap);
    ModOfMod(u + i, cap, q);
  }

  /** The wrapped difference of two counters at most 2^64 - 1 apart is their true distance. */
  lemma DistanceOfWrapped(t: nat, h: nat)
    requires h <= t < h + U64
    ensures WrappingSub(t % U64, h % U64) == t - h
  {
    AddReduced(t, -(h % U64), U64);
    ModShift(t - h % U64, U64, -(h / U64));
    assert t - h % U64 + U64 * -(h / U64) == t - h;
  }

  /** The same for a head that may have passed the tail: the difference is within the capacity only if it has not. */
  lemma LoadedDistance(t: nat, h: nat, cap: nat)
    requires t - cap <= h < t + U64 - cap && cap < U64
    ensures var n := WrappingSub(t % U64, h % U64); (n <= cap <==> h <= t) && (h <= t ==> n == t - h)
  {
    if h <= t {
      DistanceOfWrapped(t, h);
    } else {
      DistanceOfWrapped(t + U64, h);
      ModShift(t, U64, 1);
    }
  }

  /** Two different positions fewer than `cap` apart never share a slot. */
  lemma SlotsDiffer(u: nat, v: nat, cap: nat)
    requires u < v < u + cap
    ensures u % cap != v % cap
  {
    if u % cap == v % cap {
      var d := v / cap - u / cap;
      assert v - u == cap * d by {
        assert cap * (v / cap) - cap * (u / cap) == cap * d;
      }
      MulGap(cap, d);
    }
  }
}

/**
 The ring between one producer and one consumer, as the interleaving of single loads and stores.

 A load of the other side's counter may be stale: it returns any value between the one last
 seen and the current one. History components (accepted, delivered, released, headSeen, tailSeen)
 are never read by a step's decisions; the steps themselves see only the wrapped counters.
 */
module RingMachine {
  import opened Words
  import opened Bits
  import opened RingArithmetic

  datatype Producer =
    | Idle
    | Started(samples: seq<Sample>)
    | LoadedTail(samples: seq<Sample>, t: u64)
    | Storing(samples: seq<Sample>, t: u64, n: nat, i: nat)
    | Measuring(t: u64)

  datatype Consumer =
    | Ready
    | LoadedHead(want: nat, h: u64)
    | LoadedBoth(want: nat, h: u64, avail: nat)
    | Unpaused(want: nat, h: u64, avail: nat)
    | NotPlaying(want: nat, h: u64, avail: nat)
    | Starting(want: nat, h: u64, avail: nat, threshold: nat)
    | Reading(want: nat, h: u64, avail: nat, n: nat, out: seq<Sample>)
    | Released(want: nat, avail: nat, n: nat)

  /** What the last finished pop returned. */
  datatype Pop = NoPop | Popped(want: nat, avail: nat, sawPaused: bool, n: nat)

  datatype State = State(
    slots: seq<Sample>,
    head: u64,
    tail: u64,
    playing: bool,
    threshold: nat,
    paused: bool,
    producer: Producer,
    consumer: Consumer,
    lastPop: Pop,
    measured: nat,
    accepted: seq<Sample>,
    delivered: seq<Sample>,
    released: nat,
    headSeen: nat,
    tailSeen: nat)

  datatype Event =
    | PushBegin(samples: seq<Sample>)
    | PushLoadTail
    | PushLoadHead(seen: nat)
    | PushStore
    | PushPublish
    | LenLoadTail
    | LenLoadHead(seen: nat)
    | PopBegin(want: nat)
    | PopLoadTail(seen: nat)
    | PopLoadPaused
    | PopLoadPlaying
    | PopLoadThreshold
    | PopStorePlaying
    | PopRead
    | PopRelease
    | PopFinish
    | SetThreshold(request: nat)
    | SetPaused(value: bool)

  function Init(cap: nat): State
  {
    State(seq(cap, _ => SILENCE), 0, 0, false, 0, false, Idle, Ready, NoPop, 0, [], [], 0, 0, 0)
  }

  /** Program order of the two threads, and which counter values a load may observe. */
  predicate Enabled(s: State, e: Event)
  {
    match e
    case PushBegin(_) => s.producer.Idle?
    case PushLoadTail => s.producer.Started?
    case PushLoadHead(seen) => s.producer.LoadedTail? && s.headSeen <= seen <= s.released
    case PushStore => s.producer.Storing? && s.producer.i < s.producer.n
    case PushPublish => s.producer.Storing? && s.producer.i == s.producer.n
    case LenLoadTail => s.producer.Idle?
    case LenLoadHead(seen) => s.producer.Measuring? && s.headSeen <= seen <= s.released
    case PopBegin(_) => s.consumer.Ready?
    case PopLoadTail(seen) => s.consumer.LoadedHead? && s.tailSeen <= seen <= |s.accepted|
    case PopLoadPaused => s.consumer.LoadedBoth?
    case PopLoadPlaying => s.consumer.Unpaused?
    case PopLoadThreshold => s.consumer.NotPlaying?
    case PopStorePlaying => s.consumer.Starting?
    case PopRead => s.consumer.Reading? && |s.consumer.out| < s.consumer.n
    case PopRelease => s.consumer.Reading? && |s.consumer.out| == s.consumer.n
    case PopFinish => s.consumer.Released?
    case SetThreshold(_) => true
    case SetPaused(_) => true
  }

  /** `capacity - tail.wrapping_sub(head)`; negative would be an arithmetic panic. */
  function Free(cap: nat, t: u64, h: u64): int
  {
    cap - WrappingSub(t, h)
  }

  /** The step neither underflows the free-space subtraction nor indexes out of bounds. */
  predicate NoPanic(cap: nat, s: State, e: Event)
    requires cap > 0 && Enabled(s, e)
  {
    match e
    case PushLoadHead(seen) => Free(cap, s.producer.t, seen % U64) >= 0
    case PushStore =>
      s.producer.i < |s.producer.samples|
      && Masked(WrappingAdd(s.producer.t, s.producer.i), cap - 1) < |s.slots|
    case PushPublish => s.producer.n <= |s.producer.samples|
    case PopRead => Masked(WrappingAdd(s.consumer.h, |s.consumer.out|), cap - 1) < |s.slots|
    case _ => true
  }

  function StartReading(s: State, want: nat, h: u64, avail: nat): State
  {
    s.(consumer := Reading(want, h, avail, Min(want, avail), []))
  }

  function Step(cap: nat, s: State, e: Event): State
    requires cap > 0 && Enabled(s, e) && NoPanic(cap, s, e)
  {
    var p, c := s.producer, s.consumer;
    match e
    case PushBegin(samples) => s.(producer := Started(samples))
    case PushLoadTail => s.(producer := LoadedTail(p.samples, s.tail))
    case PushLoadHead(seen) =>
      var n := Min(|p.samples|, Free(cap, p.t, seen % U64));
      s.(producer := Storing(p.samples, p.t, n, 0), headSeen := seen)
    case PushStore =>
      s.(slots := s.slots[Masked(WrappingAdd(p.t, p.i), cap - 1) := p.samples[p.i]],
         producer := p.(i := p.i + 1))
    case PushPublish =>
      s.(tail := WrappingAdd(p.t, p.n), producer := Idle,
         accepted := s.accepted + p.samples[..p.n])
    case LenLoadTail => s.(producer := Measuring(s.tail))
    case LenLoadHead(seen) => s.(producer := Idle, headSeen := seen, measured := WrappingSub(p.t, seen % U64))
    case PopBegin(want) => s.(consumer := LoadedHead(want, s.head))
    case PopLoadTail(seen) =>
      s.(consumer := LoadedBoth(c.want, c.h, WrappingSub(seen % U64, c.h)), tailSeen := seen)
    case PopLoadPaused =>
      if s.paused then s.(consumer := Ready, lastPop := Popped(c.want, c.avail, true, 0))
      else s.(consumer := Unpaused(c.want, c.h, c.avail))
    case PopLoadPlaying =>
      if s.playing then StartReading(s, c.want, c.h, c.avail)
      else s.(consumer := NotPlaying(c.want, c.h, c.avail))
    case PopLoadThreshold =>
      if MayPlay(false, c.avail, s.threshold)
      then s.(consumer := Starting(c.want, c.h, c.avail, s.threshold))
      else s.(consumer := Ready, lastPop := Popped(c.want, c.avail, false, 0))
    case PopStorePlaying => StartReading(s.(playing := true), c.want, c.h, c.avail)
    case PopRead =>
      var x := s.slots[Masked(WrappingAdd(c.h, |c.out|), cap - 1)];
      s.(consumer := c.(out := c.out + [x]), delivered := s.delivered + [x])
    case PopRelease =>
      s.(head := WrappingAdd(c.h, c.n), consumer := Released(c.want, c.avail, c.n),
         released := s.released + c.n)
    case PopFinish =>
      s.(playing := s.playing && c.n >= c.want, consumer := Ready,
         lastPop := Popped(c.want, c.avail, false, c.n))
    case SetThreshold(request) => s.(threshold := Min(request, cap / 2))
    case SetPaused(value) => s.(paused := value)
  }

  // ---- The invariant ----

  ghost predicate CountersOk(cap: nat, s: State)
  {
    && |s.slots| == cap
    && s.tail == |s.accepted| % U64
    && s.head == s.released % U64
    && s.headSeen <= s.released <= s.tailSeen <= |s.accepted| <= s.headSeen + cap
    && s.threshold <= cap / 2
  }

  /** Every accepted sample not yet released still sits in its slot. */
  ghost predicate SlotsOk(slots: seq<Sample>, accepted: seq<Sample>, released: nat)
    requires |slots| > 0
  {
    forall u | released <= u < |accepted| :: slots[u % |slots|] == accepted[u]
  }

  /** The first `stored` samples of a push in progress are in the slots after position `at`. */
  ghost predicate StoredOk(slots: seq<Sample>, at: nat, samples: seq<Sample>, stored: nat)
    requires |slots| > 0
  {
    stored <= |samples| && forall j | 0 <= j < stored :: slots[(at + j) % |slots|] == samples[j]
  }

  ghost predicate ProducerOk(cap: nat, s: State)
    requires |s.slots| > 0
  {
    match s.producer
    case LoadedTail(_, t) => t == s.tail
    case Measuring(t) => t == s.tail
    case Storing(samples, t, n, i) =>
      && t == s.tail
      && i <= n <= |samples|
      && |s.accepted| + n <= s.headSeen + cap
      && StoredOk(s.slots, |s.accepted|, samples, i)
    case _ => true
  }

  /** A pop in progress whose observations are `want`, `h` and `avail`. */
  ghost predicate Observed(s: State, h: u64, avail: nat)
  {
    h == s.head && avail == s.tailSeen - s.released && |s.delivered| == s.released
  }

  ghost predicate ConsumerOk(s: State)
  {
    match s.consumer
    case Ready => |s.delivered| == s.released
    case LoadedHead(_, h) => h == s.head && |s.delivered| == s.released
    case LoadedBoth(_, h, avail) => Observed(s, h, avail)
    case Unpaused(_, h, avail) => Observed(s, h, avail)
    case NotPlaying(_, h, avail) => Observed(s, h, avail) && !s.playing
    case Starting(_, h, avail, threshold) =>
      Observed(s, h, avail) && !s.playing && MayPlay(false, avail, threshold)
    case Reading(want, h, avail, n, out) =>
      && h == s.head && avail == s.tailSeen - s.released && n == Min(want, avail)
      && s.playing
      && |out| <= n
      && |s.delivered| == s.released + |out|
    case Released(want, avail, n) =>
      s.playing && n == Min(want, avail) && |s.delivered| == s.released
  }

  /** What a finished pop says: all it saw when it played, nothing otherwise. */
  ghost predicate PopOk(cap: nat, r: Pop)
  {
    r.Popped? ==>
      && (r.n == 0 || (!r.sawPaused && r.n == Min(r.want, r.avail)))
      && (!r.sawPaused && r.avail >= cap / 2 ==> r.n == Min(r.want, r.avail))
  }

  ghost predicate Inv(cap: nat, s: State)
  {
    && ValidCapacity(cap)
    && CountersOk(cap, s)
    && s.delivered <= s.accepted
    && cap > 0 && SlotsOk(s.slots, s.accepted, s.released)
    && ProducerOk(cap, s)
    && ConsumerOk(s)
    && PopOk(cap, s.lastPop)
  }

  lemma InitInv(cap: nat)
    requires ValidCapacity(cap)
    ensures Inv(cap, Init(cap))
  {
    CapacityBounds(cap);
  }

  /** What the queue's own code relies on. */
  lemma InvFacts(cap: nat, s: State)
    requires Inv(cap, s)
    ensures 2 <= cap == |s.slots|
    ensures s.headSeen <= s.released <= s.tailSeen <= |s.accepted| <= s.released + cap
    ensures s.tail == |s.accepted| % U64 && s.head == s.released % U64
    ensures WrappingSub(s.tail, s.head) == |s.accepted| - s.released
    ensures s.consumer.Ready? ==> |s.delivered| == s.released
    ensures s.consumer.Reading? ==> |s.delivered| == s.released + |s.consumer.out|
  {
    CapacityBounds(cap);
    DistanceOfWrapped(|s.accepted|, s.released);
  }

  lemma NeverPanics(cap: nat, s: State, e: Event)
    requires Inv(cap, s) && Enabled(s, e)
    ensures cap > 0 && NoPanic(cap, s, e)
  {
    hide SlotsOk, StoredOk;
    CapacityBounds(cap);
    if e.PushLoadHead? {
      DistanceOfWrapped(|s.accepted|, e.seen);
    }
  }

  lemma LoadHeadKeepsInv(cap: nat, s: State, seen: nat)
    requires Inv(cap, s) && Enabled(s, PushLoadHead(seen)) && NoPanic(cap, s, PushLoadHead(seen))
    ensures Inv(cap, Step(cap, s, PushLoadHead(seen)))
  {
    hide SlotsOk;
    CapacityBounds(cap);
    DistanceOfWrapped(|s.accepted|, seen);
  }

  /** The slot a producer store hits holds no unreleased sample. */
  lemma NoOverwrite(cap: nat, s: State, u: nat)
    requires Inv(cap, s) && Enabled(s, PushStore)
    requires s.released <= u < |s.accepted|
    ensures Masked(WrappingAdd(s.producer.t, s.producer.i), cap - 1) != u % cap
  {
    SlotOfWrapped(|s.accepted|, s.producer.i, cap);
    SlotsDiffer(u, |s.accepted| + s.producer.i, cap);
  }

  lemma StoreKeepsSlots(cap: nat, s: State)
    requires Inv(cap, s) && Enabled(s, PushStore) && NoPanic(cap, s, PushStore)
    ensures SlotsOk(Step(cap, s, PushStore).slots, s.accepted, s.released)
  {
    var slots := Step(cap, s, PushStore).slots;
    forall u | s.released <= u < |s.accepted|
      ensures slots[u % cap] == s.accepted[u]
    {
      NoOverwrite(cap, s, u);
    }
  }

  lemma StoreKeepsProducer(cap: nat, s: State)
    requires Inv(cap, s) && Enabled(s, PushStore) && NoPanic(cap, s, PushStore)
    ensures StoredOk(Step(cap, s, PushStore).slots, |s.accepted|, s.producer.samples, s.producer.i + 1)
  {
    hide SlotsOk, StoredOk;
    SlotOfWrapped(|s.accepted|, s.producer.i, cap);
    OneMoreStored(s.slots, |s.accepted|, s.producer.samples, s.producer.i);
  }

  lemma OneMoreStored(slots: seq<Sample>, at: nat, samples: seq<Sample>, i: nat)
    requires i < |slots| && i < |samples| && StoredOk(slots, at, samples, i)
    ensures StoredOk(slots[(at + i) % |slots| := samples[i]], at, samples, i + 1)
  {
    var slot := (at + i) % |slots|;
    var after := slots[slot := samples[i]];
    forall j | 0 <= j < i + 1
      ensures after[(at + j) % |slots|] == samples[j]
    {
      if j < i {
        SlotsDiffer(at + j, at + i, |slots|);
        OtherSlot(slots, slot, samples[i], (at + j) % |slots|);
      }
    }
  }

  lemma OtherSlot(slots: seq<Sample>, slot: nat, x: Sample, other: nat)
    requires slot < |slots| && other < |slots| && slot != other
    ensures slots[slot := x][other] == slots[other]
  {
  }

  lemma PublishKeepsSlots(cap: nat, s: State)
    requires Inv(cap, s) && Enabled(s, PushPublish) && NoPanic(cap, s, PushPublish)
    ensures var s' := Step(cap, s, PushPublish); SlotsOk(s'.slots, s'.accepted, s'.released)
  {
    var p, before := s.producer, |s.accepted|;
    var s' := Step(cap, s, PushPublish);
    forall u | s'.released <= u < |s'.accepted|
      ensures s'.slots[u % cap] == s'.accepted[u]
    {
      if u >= before {
        assert s.slots[(before + (u - before)) % cap] == p.samples[u - before];
      }
    }
  }

  lemma PublishKeepsInv(cap: nat, s: State)
    requires Inv(cap, s) && Enabled(s, PushPublish) && NoPanic(cap, s, PushPublish)
    ensures Inv(cap, Step(cap, s, PushPublish))
  {
    hide SlotsOk, StoredOk;
    PublishKeepsSlots(cap, s);
    AddReduced(|s.accepted|, s.producer.n, U64);
  }

  lemma LoadTailKeepsInv(cap: nat, s: State, seen: nat)
    requires Inv(cap, s) && Enabled(s, PopLoadTail(seen)) && NoPanic(cap, s, PopLoadTail(seen))
    ensures Inv(cap, Step(cap, s, PopLoadTail(seen)))
  {
    hide SlotsOk, StoredOk;
    CapacityBounds(cap);
    DistanceOfWrapped(seen, s.released);
  }

  /** The slot a consumer load hits holds the next accepted sample. */
  lemma NextUnread(cap: nat, s: State)
    requires Inv(cap, s) && Enabled(s, PopRead) && NoPanic(cap, s, PopRead)
    ensures |s.delivered| < |s.accepted|
    ensures s.slots[Masked(WrappingAdd(s.consumer.h, |s.consumer.out|), cap - 1)] == s.accepted[|s.delivered|]
  {
    var u := s.released + |s.consumer.out|;
    SlotOfWrapped(s.released, |s.consumer.out|, cap);
    assert s.slots[u % cap] == s.accepted[u];
  }

  lemma ReadTakesNext(cap: nat, s: State)
    requires Inv(cap, s) && Enabled(s, PopRead) && NoPanic(cap, s, PopRead)
    ensures |s.delivered| < |s.accepted|
    ensures var x := s.accepted[|s.delivered|];
      && s.slots[Masked(WrappingAdd(s.consumer.h, |s.consumer.out|), cap - 1)] == x
      && Step(cap, s, PopRead)
         == s.(consumer := s.consumer.(out := s.consumer.out + [x]), delivered := s.delivered + [x])
  {
    NextUnread(cap, s);
  }

  lemma ReadKeepsInv(cap: nat, s: State)
    requires Inv(cap, s) && Enabled(s, PopRead) && NoPanic(cap, s, PopRead)
    ensures Inv(cap, Step(cap, s, PopRead))
  {
    hide SlotsOk, StoredOk;
    NextUnread(cap, s);
    assert Step(cap, s, PopRead).delivered == s.accepted[..|s.delivered| + 1];
  }

  lemma ReleaseKeepsInv(cap: nat, s: State)
    requires Inv(cap, s) && Enabled(s, PopRelease) && NoPanic(cap, s, PopRelease)
    ensures Inv(cap, Step(cap, s, PopRelease))
  {
    AddReduced(s.released, s.consumer.n, U64);
  }

  lemma ProducerKeepsInv(cap: nat, s: State, e: Event)
    requires Inv(cap, s) && Enabled(s, e) && NoPanic(cap, s, e)
    requires e.PushBegin? || e.PushLoadTail? || e.PushLoadHead? || e.PushStore? || e.PushPublish?
      || e.LenLoadTail? || e.LenLoadHead?
    ensures Inv(cap, Step(cap, s, e))
  {
    match e
    case PushLoadHead(seen) => LoadHeadKeepsInv(cap, s, seen);
    case PushStore =>
      StoreKeepsSlots(cap, s);
      StoreKeepsProducer(cap, s);
    case PushPublish => PublishKeepsInv(cap, s);
    case _ =>
  }

  lemma DecisionKeepsInv(cap: nat, s: State, e: Event)
    requires Inv(cap, s) && Enabled(s, e)
    requires e.PopLoadPaused? || e.PopLoadPlaying? || e.PopLoadThreshold? || e.PopStorePlaying? || e.PopFinish?
    ensures Inv(cap, Step(cap, s, e))
  {
    hide SlotsOk, StoredOk;
    CapacityBounds(cap);
  }

  lemma StepKeepsInv(cap: nat, s: State, e: Event)
    requires Inv(cap, s) && Enabled(s, e)
    ensures cap > 0 && NoPanic(cap, s, e)
    ensures Inv(cap, Step(cap, s, e))
  {
    hide SlotsOk, StoredOk;
    NeverPanics(cap, s, e);
    match e
    case PopBegin(_) =>
    case PopLoadTail(seen) => LoadTailKeepsInv(cap, s, seen);
    case PopLoadPaused => DecisionKeepsInv(cap, s, e);
    case PopLoadPlaying => DecisionKeepsInv(cap, s, e);
    case PopLoadThreshold => DecisionKeepsInv(cap, s, e);
    case PopStorePlaying => DecisionKeepsInv(cap, s, e);
    case PopFinish => DecisionKeepsInv(cap, s, e);
    case PopRead => ReadKeepsInv(cap, s);
    case PopRelease => ReleaseKeepsInv(cap, s);
    case SetThreshold(_) =>
    case SetPaused(_) =>
    case _ => ProducerKeepsInv(cap, s, e);
  }

  // ---- Whole runs ----

  /** One step of the system; after a panic anything may follow. */
  ghost predicate Next(cap: nat, s: State, e: Event, s': State)
    requires cap > 0
  {
    Enabled(s, e) && (NoPanic(cap, s, e) ==> s' == Step(cap, s, e))
  }

  ghost predicate IsRun(cap: nat, ss: seq<State>, es: seq<Event>)
  {
    && cap > 0
    && |ss| == |es| + 1
    && ss[0] == Init(cap)
    && forall i | 0 <= i < |es| :: Next(cap, ss[i], es[i], ss[i + 1])
  }

  lemma {:induction false} RunKeepsInv(cap: nat, ss: seq<State>, es: seq<Event>, i: nat)
    requires ValidCapacity(cap) && IsRun(cap, ss, es) && i < |ss|
    ensures Inv(cap, ss[i])
  {
    if i == 0 {
      InitInv(cap);
    } else {
      RunKeepsInv(cap, ss, es, i - 1);
      assert Next(cap, ss[i - 1], es[i - 1], ss[i]);
      StepKeepsInv(cap, ss[i - 1], es[i - 1]);
    }
  }

  /** FIFO: under every interleaving, what was popped is a prefix of what was accepted. */
  lemma DeliveredIsPrefixOfAccepted(cap: nat, ss: seq<State>, es: seq<Event>, i: nat)
    requires ValidCapacity(cap) && IsRun(cap, ss, es) && i < |ss|
    ensures ss[i].delivered <= ss[i].accepted
  {
    RunKeepsInv(cap, ss, es, i);
  }

  /** The wrapped counters stand for unbounded ones whose distance is always within the capacity. */
  lemma OccupancyStaysInCapacity(cap: nat, ss: seq<State>, es: seq<Event>, i: nat)
    requires ValidCapacity(cap) && IsRun(cap, ss, es) && i < |ss|
    ensures 0 <= |ss[i].accepted| - ss[i].released <= cap
    ensures WrappingSub(ss[i].tail, ss[i].head) == |ss[i].accepted| - ss[i].released
    ensures forall j | 0 <= j < cap ::
      Masked(WrappingAdd(ss[i].head, j), cap - 1) == (ss[i].released + j) % cap
  {
    RunKeepsInv(cap, ss, es, i);
    CapacityBounds(cap);
    DistanceOfWrapped(|ss[i].accepted|, ss[i].released);
    forall j | 0 <= j < cap
      ensures Masked(WrappingAdd(ss[i].head, j), cap - 1) == (ss[i].released + j) % cap
    {
      SlotOfWrapped(ss[i].released, j, cap);
    }
  }

  /** No step of any run panics, and no store hits a slot whose sample is still unread. */
  lemma StepsAreSafe(cap: nat, ss: seq<State>, es: seq<Event>, i: nat)
    requires ValidCapacity(cap) && IsRun(cap, ss, es) && i < |es|
    ensures Enabled(ss[i], es[i]) && NoPanic(cap, ss[i], es[i])
    ensures es[i].PushStore? ==>
      forall u | ss[i].released <= u < |ss[i].accepted| ::
        && u % cap < |ss[i].slots| == |ss[i + 1].slots|
        && ss[i + 1].slots[u % cap] == ss[i].slots[u % cap] == ss[i].accepted[u]
  {
    RunKeepsInv(cap, ss, es, i);
    RunKeepsInv(cap, ss, es, i + 1);
    assert Next(cap, ss[i], es[i], ss[i + 1]);
    NeverPanics(cap, ss[i], es[i]);
  }

  /** A publish makes exactly the stored prefix of the pushed samples visible, in order. */
  lemma PublishAcceptsPrefix(cap: nat, ss: seq<State>, es: seq<Event>, i: nat)
    requires ValidCapacity(cap) && IsRun(cap, ss, es) && i < |es| && es[i].PushPublish?
    ensures var p := ss[i].producer;
      && p.Storing? && p.n <= |p.samples|
      && ss[i + 1].accepted == ss[i].accepted + p.samples[..p.n]
      && ss[i + 1].released == ss[i].released
  {
    RunKeepsInv(cap, ss, es, i);
    StepsAreSafe(cap, ss, es, i);
    assert Next(cap, ss[i], es[i], ss[i + 1]);
  }

  /** Everything but a publish leaves the accepted stream alone; everything but a read, the delivered one. */
  lemma StreamsOnlyGrow(cap: nat, ss: seq<State>, es: seq<Event>, i: nat)
    requires ValidCapacity(cap) && IsRun(cap, ss, es) && i < |es|
    ensures ss[i].accepted <= ss[i + 1].accepted && ss[i].delivered <= ss[i + 1].delivered
    ensures !es[i].PushPublish? ==> ss[i + 1].accepted == ss[i].accepted
    ensures !es[i].PopRead? ==> ss[i + 1].delivered == ss[i].delivered
  {
    StepsAreSafe(cap, ss, es, i);
    assert Next(cap, ss[i], es[i], ss[i + 1]);
  }

  /** What the producer's `len` returns, whatever the consumer does between and after its two loads: at least the
      occupancy at the second load, and never more than the capacity. */
  lemma MeasuredLength(cap: nat, ss: seq<State>, es: seq<Event>, i: nat)
    requires ValidCapacity(cap) && IsRun(cap, ss, es) && i < |es| && es[i].LenLoadHead?
    ensures |ss[i].accepted| - ss[i].released <= ss[i + 1].measured <= cap
    ensures es[i].seen == ss[i].released ==> ss[i + 1].measured == |ss[i].accepted| - ss[i].released
    ensures ss[i + 1].accepted == ss[i].accepted && ss[i + 1].released == ss[i].released
  {
    RunKeepsInv(cap, ss, es, i);
    StepsAreSafe(cap, ss, es, i);
    assert Next(cap, ss[i], es[i], ss[i + 1]);
    CapacityBounds(cap);
    DistanceOfWrapped(|ss[i].accepted|, es[i].seen);
  }

  /**
   A `len` called from a third handle: it loads the tail at one moment and the head at that one or later, no older
   than the head the producer had seen when it published that tail. As long as the head is not 2^64 less the
   capacity ahead, the result is within the capacity, and then the distance of what was loaded, if and only if the
   head it loaded is not past the tail it loaded.
   */
  lemma ObservedLength(cap: nat, ss: seq<State>, es: seq<Event>, i: nat, j: nat, head: nat)
    requires ValidCapacity(cap) && IsRun(cap, ss, es) && i <= j < |ss|
    requires |ss[i].accepted| - cap <= head <= ss[j].released && head < |ss[i].accepted| + U64 - cap
    ensures var n, tail := WrappingSub(ss[i].tail, head % U64), |ss[i].accepted|;
      && (n <= cap <==> head <= tail)
      && (head <= tail ==> n == tail - head)
  {
    RunKeepsInv(cap, ss, es, i);
    CapacityBounds(cap);
    hide Inv, IsRun, WrappingSub;
    LoadedDistance(|ss[i].accepted|, head, cap);
  }

  /** A run goes on with any enabled event. */
  lemma Continue(cap: nat, ss: seq<State>, es: seq<Event>, e: Event)
    returns (ss': seq<State>, es': seq<Event>, s': State)
    requires ValidCapacity(cap) && IsRun(cap, ss, es) && |ss| == |es| + 1 && Enabled(ss[|es|], e)
    ensures IsRun(cap, ss', es') && |ss'| == |es'| + 1 == |ss| + 1 && ss'[0] == ss[0] && ss'[|es'|] == s'
    ensures NoPanic(cap, ss[|es|], e) && s' == Step(cap, ss[|es|], e)
  {
    RunKeepsInv(cap, ss, es, |es|);
    StepKeepsInv(cap, ss[|es|], e);
    s' := Step(cap, ss[|es|], e);
    ss', es' := ss + [s'], es + [e];
    hide Step, NoPanic, Enabled;
    forall i | 0 <= i < |es'|
      ensures Next(cap, ss'[i], es'[i], ss'[i + 1])
    {
      assert i < |es| ==> Next(cap, ss[i], es[i], ss[i + 1]);
    }
  }

  /** One sample goes into an empty ring. */
  lemma PushOne(x: Sample) returns (ss: seq<State>, es: seq<Event>, s: State)
    ensures ValidCapacity(2) && IsRun(2, ss, es) && ss[|es|] == s && ss[0] == Init(2) && |ss| == |es| + 1 == 6
    ensures s.consumer.Ready? && s.head == 0 && s.released == 0 && s.tailSeen == 0 && s.tail == 1 && |s.accepted| == 1
    ensures !s.paused && !s.playing && s.threshold == 0
  {
    assert Pow2(1) == 2 && ValidCapacity(2);
    ss, es := [Init(2)], [];
    assert IsRun(2, ss, es);
    hide IsRun, Masked;
    ss, es, s := Continue(2, ss, es, PushBegin([x]));
    ss, es, s := Continue(2, ss, es, PushLoadTail);
    ss, es, s := Continue(2, ss, es, PushLoadHead(0));
    ss, es, s := Continue(2, ss, es, PushStore);
    ss, es, s := Continue(2, ss, es, PushPublish);
  }

  /** And a pop finds it. */
  lemma FindOne(x: Sample) returns (ss: seq<State>, es: seq<Event>, s: State)
    ensures ValidCapacity(2) && IsRun(2, ss, es) && ss[|es|] == s && ss[0] == Init(2) && |ss| == |es| + 1 == 8
    ensures s.consumer == LoadedBoth(1, 0, 1) && !s.paused && !s.playing && s.threshold == 0
  {
    hide IsRun, Masked;
    ss, es, s := PushOne(x);
    ss, es, s := Continue(2, ss, es, PopBegin(1));
    ss, es, s := Continue(2, ss, es, PopLoadTail(1));
  }

  /** Playing starts. */
  lemma PlayOne(x: Sample) returns (ss: seq<State>, es: seq<Event>, s: State)
    ensures ValidCapacity(2) && IsRun(2, ss, es) && ss[|es|] == s && ss[0] == Init(2) && |ss| == |es| + 1 == 12
    ensures s.consumer == Reading(1, 0, 1, 1, [])
  {
    hide IsRun, Masked;
    ss, es, s := FindOne(x);
    ss, es, s := Continue(2, ss, es, PopLoadPaused);
    ss, es, s := Continue(2, ss, es, PopLoadPlaying);
    ss, es, s := Continue(2, ss, es, PopLoadThreshold);
    ss, es, s := Continue(2, ss, es, PopStorePlaying);
  }

  /**
   A third handle loads the tail of the empty ring, one sample is pushed and popped, and then it loads the head:
   its `len` is 2^64 - 1.
   */
  lemma Overtaken(x: Sample) returns (ss: seq<State>, es: seq<Event>)
    ensures ValidCapacity(2) && IsRun(2, ss, es) && |ss| == 14
    ensures WrappingSub(ss[0].tail, ss[13].head) == U64 - 1
  {
    hide IsRun, Masked;
    var s: State;
    ss, es, s := PlayOne(x);
    ss, es, s := Continue(2, ss, es, PopRead);
    ss, es, s := Continue(2, ss, es, PopRelease);
  }

  /** Hysteresis: samples move only while playing, and playing starts only on a filled queue. */
  lemma PlayingBursts(cap: nat, ss: seq<State>, es: seq<Event>, i: nat)
    requires ValidCapacity(cap) && IsRun(cap, ss, es) && i < |es|
    ensures ss[i + 1].head != ss[i].head || ss[i + 1].delivered != ss[i].delivered ==> ss[i].playing
    ensures !ss[i].playing && ss[i + 1].playing ==>
      && ss[i].consumer.Starting?
      && ss[i].consumer.threshold <= |ss[i].accepted| - ss[i].released
      && (ss[i].consumer.threshold == 0 || |ss[i].accepted| > ss[i].released)
    ensures ss[i].playing && !ss[i + 1].playing ==>
      ss[i].consumer.Released? && ss[i].consumer.n < ss[i].consumer.want
  {
    RunKeepsInv(cap, ss, es, i);
    StepsAreSafe(cap, ss, es, i);
    assert Next(cap, ss[i], es[i], ss[i + 1]);
  }

  /** No wedge: an unpaused, non-empty pop that saw a half-full ring yielded samples. */
  lemma HalfFullNeverStarves(cap: nat, ss: seq<State>, es: seq<Event>, i: nat)
    requires ValidCapacity(cap) && IsRun(cap, ss, es) && i < |ss|
    requires ss[i].lastPop.Popped? && !ss[i].lastPop.sawPaused
    requires ss[i].lastPop.want > 0 && ss[i].lastPop.avail >= cap / 2
    ensures ss[i].lastPop.n == Min(ss[i].lastPop.want, ss[i].lastPop.avail) >= 1
  {
    RunKeepsInv(cap, ss, es, i);
    CapacityBounds(cap);
  }
}

/** The queue itself, each of whose loads and stores is one event of the step machine. */
module AudioQueue {
  import opened Words
  import opened Bits
  import opened RingArithmetic
  import opened RingMachine

  /** The smallest power of two that is at least n. */
  function NextPowerOfTwo(n: nat): (r: nat)
    ensures r >= n && r >= 1
    ensures n > 1 ==> r < 2 * n
    ensures exists k: nat :: r == Pow2(k)
  {
    if n <= 1 then
      assert Pow2(0) == 1;
      1
    else
      var half := NextPowerOfTwo((n + 1) / 2);
      ghost var k: nat :| half == Pow2(k);
      assert 2 * half == Pow2(k + 1);
      2 * half
  }

  lemma Pow2Order(j: nat, k: nat)
    requires Pow2(j) < Pow2(k)
    ensures j < k
  {
    if j >= k {
      Pow2Grows(k, j);
    }
  }

  /** The capacity for a request: past 2^63 the next power of two does not fit and wraps to 0. */
  function Capacity(request: u64): nat
  {
    Max(if request > Pow2(63) then 0 else NextPowerOfTwo(request), 2)
  }

  lemma CapacityIsValid(request: u64)
    ensures ValidCapacity(Capacity(request))
    ensures request <= Pow2(63) ==> request <= Capacity(request) && (request > 2 ==> Capacity(request) < 2 * request)
  {
    assert Pow2(1) == 2;
    if request > Pow2(63) {
      assert ValidCapacity(2);
    } else {
      RoundedIsValid(request);
    }
  }

  lemma RoundedIsValid(n: nat)
    requires n <= Pow2(63)
    ensures ValidCapacity(Max(NextPowerOfTwo(n), 2))
  {
    var r := NextPowerOfTwo(n);
    var k: nat :| r == Pow2(k);
    assert Pow2(1) == 2;
    if k == 0 {
      assert ValidCapacity(2);
    } else {
      Pow2Grows(1, k);
      assert Pow2(64) == 2 * Pow2(63);
      Pow2Order(k, 64);
      assert ValidCapacity(r);
    }
  }

  class SampleQueue {
    const slots: array<Sample>
    var head: u64
    var tail: u64
    var started: bool
    var playing: bool
    var startThreshold: nat
    var paused: bool
    ghost var model: State

    ghost predicate Valid()
      reads this, slots
    {
      && Inv(slots.Length, model)
      && model.slots == slots[..]
      && model.head == head && model.tail == tail
      && model.playing == playing && model.threshold == startThreshold && model.paused == paused
      && model.producer.Idle? && model.consumer.Ready?
    }

    /** The queued samples, oldest first. */
    ghost function Contents(): seq<Sample>
      reads this, slots
      requires Valid()
    {
      model.accepted[model.released..]
    }

    constructor WithCapacity(capacity: u64)
      ensures Valid() && fresh(slots)
      ensures slots.Length == Capacity(capacity)
      ensures Contents() == [] && !playing && !paused && startThreshold == 0
    {
      hide SlotsOk, StoredOk;
      var cap := Capacity(capacity);
      slots := new Sample[cap](_ => SILENCE);
      head, tail := 0, 0;
      started, playing, paused := false, false, false;
      startThreshold := 0;
      model := Init(cap);
      new;
      CapacityIsValid(capacity);
      InitInv(cap);
      assert slots[..] == model.slots;
    }

    method SetStartThreshold(samples: nat)
      requires Valid()
      modifies this`startThreshold, this`model
      ensures Valid()
      ensures startThreshold == Min(samples, slots.Length / 2)
      ensures Contents() == old(Contents())
    {
      hide SlotsOk, StoredOk;
      StepKeepsInv(slots.Length, model, SetThreshold(samples));
      startThreshold := Min(samples, slots.Length / 2);
      model := Step(slots.Length, model, SetThreshold(samples));
    }

    /** Appends as many of the samples as fit; the rest are dropped. */
    method Push(samples: seq<Sample>) returns (n: nat)
      requires Valid()
      modifies this`started, this`tail, this`model, slots
      ensures Valid() && started
      ensures n == Min(|samples|, slots.Length - |old(Contents())|)
      ensures Contents() == old(Contents()) + samples[..n]
      ensures model.delivered == old(model.delivered)
    {
      hide Inv, ValidCapacity, Masked, Step;
      InvFacts(slots.Length, model);
      started := true;
      var t, free := Reserve(samples);
      n := Min(|samples|, free);
      StoreFrom(samples, t, n);
      Publish(samples, t, n);
    }

    /** The store of the tail that makes a push's samples visible. */
    method Publish(samples: seq<Sample>, t: u64, n: nat)
      requires n <= |samples| && Inv(slots.Length, model) && model.producer == Storing(samples, t, n, n)
      modifies this`tail, this`model
      ensures Inv(slots.Length, model) && tail == model.tail
      ensures model == old(model).(tail := tail, producer := Idle, accepted := old(model.accepted) + samples[..n])
    {
      hide Inv, ValidCapacity;
      tail := WrappingAdd(t, n);
      Advance(PushPublish);
    }

    /** The two counter loads that open a push. */
    method Reserve(ghost samples: seq<Sample>) returns (t: u64, free: nat)
      requires Valid()
      modifies this`model
      ensures Inv(slots.Length, model)
      ensures t == tail && free == slots.Length - (|model.accepted| - model.released)
      ensures model == old(model).(producer := Storing(samples, t, Min(|samples|, free), 0),
                                   headSeen := old(model.released))
    {
      hide Inv, ValidCapacity, Masked;
      InvFacts(slots.Length, model);
      Advance(PushBegin(samples));
      t := tail;
      Advance(PushLoadTail);
      var h := head;
      Advance(PushLoadHead(model.released));
      free := slots.Length - WrappingSub(t, h);
    }

    /** The store loop of a push: one slot store per sample, none published yet. */
    method StoreFrom(samples: seq<Sample>, t: u64, n: nat)
      requires n <= |samples|
      requires Inv(slots.Length, model) && model.slots == slots[..]
      requires model.producer == Storing(samples, t, n, 0)
      modifies this`model, slots
      ensures Inv(slots.Length, model) && model.slots == slots[..]
      ensures model == old(model).(slots := slots[..], producer := Storing(samples, t, n, n))
    {
      hide Inv, ValidCapacity, Masked;
      var i := 0;
      while i < n
        invariant 0 <= i <= n
        invariant Inv(slots.Length, model) && model.slots == slots[..]
        invariant model == old(model).(slots := slots[..], producer := Storing(samples, t, n, i))
      {
        InvFacts(slots.Length, model);
        NeverPanics(slots.Length, model, PushStore);
        slots[Masked(WrappingAdd(t, i), slots.Length - 1)] := samples[i];
        Advance(PushStore);
        i := i + 1;
      }
    }

    /** Fills `out` from the queue, padding with silence; returns how many samples were real. */
    method PopOrSilence(out: array<Sample>) returns (n: nat)
      requires Valid() && out != slots
      modifies this`head, this`playing, this`model, out
      ensures Valid()
      ensures var queued := old(Contents());
        n == if paused || !MayPlay(old(playing), |queued|, startThreshold) then 0
             else Min(out.Length, |queued|)
      ensures out[..] == old(Contents())[..n] + seq(out.Length - n, _ => SILENCE)
      ensures Contents() == old(Contents())[n..]
      ensures model.delivered == old(model.delivered) + out[..n]
      ensures model.accepted == old(model.accepted)
      ensures playing ==
        if paused then old(playing)
        else MayPlay(old(playing), |old(Contents())|, startThreshold) && n == out.Length
    {
      hide Inv, ValidCapacity, Masked, Step;
      InvFacts(slots.Length, model);
      var h, avail := Observe(out.Length);
      var admitted := Admit(out.Length, h, avail);
      if !admitted {
        n := 0;
        Silence(out, 0);
        return;
      }
      n := Min(out.Length, avail);
      ReadInto(out, h, avail, n);
      ghost var taken := out[..n];
      Release(out.Length, h, avail, n);
      Silence(out, n);
      assert out[..n] == taken;
    }

    /** The two counter loads that open a pop. */
    method Observe(ghost want: nat) returns (h: u64, avail: nat)
      requires Valid()
      modifies this`model
      ensures Inv(slots.Length, model)
      ensures h == head && avail == |model.accepted| - model.released
      ensures model == old(model).(consumer := LoadedBoth(want, h, avail), tailSeen := |model.accepted|)
    {
      hide Inv, ValidCapacity;
      InvFacts(slots.Length, model);
      h := head;
      Advance(PopBegin(want));
      var t := tail;
      Advance(PopLoadTail(|model.accepted|));
      avail := WrappingSub(t, h);
    }

    /** The pause, playing and threshold checks of a pop. */
    method Admit(want: nat, h: u64, avail: nat) returns (admitted: bool)
      requires Inv(slots.Length, model)
      requires model.consumer == LoadedBoth(want, h, avail)
      requires model.playing == playing && model.threshold == startThreshold && model.paused == paused
      modifies this`playing, this`model
      ensures Inv(slots.Length, model) && model.playing == playing
      ensures admitted == (!paused && MayPlay(old(playing), avail, startThreshold))
      ensures playing == (old(playing) || admitted)
      ensures model == old(model).(playing := playing, consumer := model.consumer, lastPop := model.lastPop)
      ensures model.consumer == if admitted then Reading(want, h, avail, Min(want, avail), []) else Ready
    {
      hide Inv, ValidCapacity;
      Advance(PopLoadPaused);
      if paused {
        return false;
      }
      Advance(PopLoadPlaying);
      if !playing {
        var threshold := startThreshold;
        Advance(PopLoadThreshold);
        if MayPlay(false, avail, threshold) {
          playing := true;
          Advance(PopStorePlaying);
        } else {
          return false;
        }
      }
      admitted := true;
    }

    /** The end of a pop: the samples read are released, and an underrun stops playing. */
    method Release(want: nat, h: u64, avail: nat, n: nat)
      requires Inv(slots.Length, model) && model.playing == playing
      requires model.consumer.Reading? && |model.consumer.out| == n
      requires model.consumer == Reading(want, h, avail, n, model.consumer.out)
      modifies this`head, this`playing, this`model
      ensures Inv(slots.Length, model) && model.playing == playing && model.head == head
      ensures playing == (old(playing) && n == want)
      ensures model == old(model).(head := head, playing := playing, consumer := Ready,
                                   lastPop := Popped(want, avail, false, n), released := old(model.released) + n)
    {
      hide ValidCapacity, SlotsOk, StoredOk;
      head := WrappingAdd(h, n);
      Advance(PopRelease);
      if n < want {
        playing := false;
      }
      Advance(PopFinish);
    }

    /** The read loop of a pop: one slot load per sample, none released yet. */
    method ReadInto(out: array<Sample>, h: u64, avail: nat, n: nat)
      requires out != slots && n <= out.Length
      requires Inv(slots.Length, model) && model.slots == slots[..]
      requires model.consumer == Reading(out.Length, h, avail, n, [])
      requires model.released + n <= |model.accepted|
      modifies this`model, out
      ensures Inv(slots.Length, model)
      ensures out[..n] == old(model.accepted[model.released..model.released + n])
      ensures model == old(model).(consumer := Reading(out.Length, h, avail, n, out[..n]),
                                   delivered := old(model.delivered) + out[..n])
    {
      hide Inv, ValidCapacity, Masked, Step, Enabled;
      ghost var queued := model.accepted[model.released..model.released + n];
      var i := 0;
      while i < n
        invariant 0 <= i <= n
        invariant Inv(slots.Length, model)
        invariant out[..i] == queued[..i]
        invariant model == old(model).(consumer := Reading(out.Length, h, avail, n, queued[..i]),
                                       delivered := old(model.delivered) + queued[..i])
      {
        ReadOne(out, h, i);
        PrefixGrows(queued, i);
        PrefixGrows(out[..], i);
        i := i + 1;
      }
      WholePrefix(queued);
    }

    /** One load of that loop: the next sample, into its place. */
    method ReadOne(out: array<Sample>, h: u64, i: nat)
      requires out != slots && i < out.Length
      requires Inv(slots.Length, model) && model.slots == slots[..] && model.consumer.Reading?
      requires model.consumer.h == h && |model.consumer.out| == i < model.consumer.n
      requires model.released + i < |model.accepted|
      modifies this`model, out
      ensures Inv(slots.Length, model) && out[..] == old(out[..])[i := old(model.accepted[model.released + i])]
      ensures model == old(model).(consumer := old(model.consumer).(out := old(model.consumer.out) + [out[i]]),
                                   delivered := old(model.delivered) + [out[i]])
    {
      hide Inv, ValidCapacity, Masked;
      InvFacts(slots.Length, model);
      NeverPanics(slots.Length, model, PopRead);
      ReadTakesNext(slots.Length, model);
      out[i] := slots[Masked(WrappingAdd(h, i), slots.Length - 1)];
      Advance(PopRead);
    }

    static lemma PrefixGrows(s: seq<Sample>, i: nat)
      requires i < |s|
      ensures s[..i + 1] == s[..i] + [s[i]]
    {
    }

    static lemma WholePrefix(s: seq<Sample>)
      ensures s[..|s|] == s
    {
    }

    /** Zeroes the tail of a buffer. */
    static method Silence(out: array<Sample>, from: nat)
      requires from <= out.Length
      modifies out
      ensures out[..] == old(out[..from]) + seq(out.Length - from, _ => SILENCE)
    {
      for i := from to out.Length
        invariant out[..from] == old(out[..from])
        invariant forall j | from <= j < i :: out[j] == SILENCE
      {
        out[i] := SILENCE;
      }
    }

    /** The event just performed, on the model. */
    ghost method Advance(e: Event)
      requires Inv(slots.Length, model) && Enabled(model, e)
      modifies this`model
      ensures slots.Length > 0 && NoPanic(slots.Length, old(model), e)
      ensures model == Step(slots.Length, old(model), e)
      ensures Inv(slots.Length, model)
    {
      StepKeepsInv(slots.Length, model, e);
      model := Step(slots.Length, model, e);
    }

    /** As the producer calls it: two loads, each an event of the machine. */
    method Len() returns (n: nat)
      requires Valid()
      modifies this`model
      ensures Valid() && n == model.measured == |Contents()| && Contents() == old(Contents())
    {
      hide SlotsOk, StoredOk;
      InvFacts(slots.Length, model);
      var t := tail;
      Advance(LenLoadTail);
      var h := head;
      Advance(LenLoadHead(model.released));
      n := WrappingSub(t, h);
    }
  }
}
