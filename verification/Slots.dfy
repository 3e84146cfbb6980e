/**
 Transfer slots: a first-come gate of permits shared by all peers, then one lock per peer. A request that
 gives up while waiting is dropped, and what it held goes back.
 */
module Slots {
  type Peer = string

  /** Where a request stands; `Unlocked` has dropped the peer's lock and not yet its permit. */
  datatype Phase = Idle | AtGate | AtLock | Running | Unlocked | Ended(served: bool)

  /** Free permits, the two queues in order of arrival, the peers whose lock is held, and all requests. */
  datatype State = State(free: nat, gate: seq<nat>, queue: seq<nat>, held: set<Peer>, phases: seq<Phase>)

  datatype Step = Arrive(i: nat) | Admit | TakeLock(i: nat) | Unlock(i: nat) | Leave(i: nat) | Cancel(i: nat)

  /** The position of an element, the length standing for none. */
  function Find(s: seq<nat>, x: nat): (k: nat)
    ensures k <= |s| && (k < |s| ==> s[k] == x) && x !in s[..k]
  {
    if s == [] || s[0] == x then 0 else
    var k := 1 + Find(s[1..], x);
    assert s[..k] == [s[0]] + s[1..][..k - 1];
    k
  }

  function Without(s: seq<nat>, x: nat): seq<nat> {
    var k := Find(s, x);
    if k < |s| then s[..k] + s[k + 1..] else s
  }

  predicate In(s: State, i: nat, p: Phase) {
    i < |s.phases| && s.phases[i] == p
  }

  /** No earlier waiter wants the same peer's lock. */
  predicate FirstOfPeer(s: State, peers: seq<Peer>, i: nat)
    requires i < |peers|
  {
    forall j <- s.queue[..Find(s.queue, i)] :: j < |peers| ==> peers[j] != peers[i]
  }

  predicate Enabled(s: State, peers: seq<Peer>, step: Step) {
    match step
    case Arrive(i) => In(s, i, Idle)
    case Admit => s.gate != [] && s.free > 0 && s.gate[0] < |s.phases|
    case TakeLock(i) => i < |peers| && In(s, i, AtLock) && peers[i] !in s.held && FirstOfPeer(s, peers, i)
    case Unlock(i) => i < |peers| && In(s, i, Running)
    case Leave(i) => In(s, i, Unlocked)
    case Cancel(i) => In(s, i, AtGate) || In(s, i, AtLock)
  }

  function Next(s: State, peers: seq<Peer>, step: Step): State
    requires Enabled(s, peers, step)
  {
    match step
    case Arrive(i) => s.(gate := s.gate + [i], phases := s.phases[i := AtGate])
    case Admit =>
      var i := s.gate[0];
      s.(free := s.free - 1, gate := s.gate[1..], queue := s.queue + [i], phases := s.phases[i := AtLock])
    case TakeLock(i) =>
      s.(queue := Without(s.queue, i), held := s.held + {peers[i]}, phases := s.phases[i := Running])
    case Unlock(i) => s.(held := s.held - {peers[i]}, phases := s.phases[i := Unlocked])
    case Leave(i) => s.(free := s.free + 1, phases := s.phases[i := Ended(true)])
    case Cancel(i) =>
      if s.phases[i].AtGate? then s.(gate := Without(s.gate, i), phases := s.phases[i := Ended(false)])
      else s.(free := s.free + 1, queue := Without(s.queue, i), phases := s.phases[i := Ended(false)])
  }

  function Start(permits: nat, peers: seq<Peer>): State {
    State(permits, [], [], {}, seq(|peers|, _ => Idle))
  }

  // ----- What every state keeps -----

  function Holds(p: Phase): nat {
    if p.AtLock? || p.Running? || p.Unlocked? then 1 else 0
  }

  /** Steps a request still has to take at most. */
  function Left(p: Phase): nat {
    match p
    case Idle => 5
    case AtGate => 4
    case AtLock => 3
    case Running => 2
    case Unlocked => 1
    case Ended(_) => 0
  }

  function Total(ps: seq<Phase>, f: Phase -> nat): nat {
    if ps == [] then 0 else f(ps[0]) + Total(ps[1..], f)
  }

  lemma {:induction false} TotalUpdate(ps: seq<Phase>, i: nat, p: Phase, f: Phase -> nat)
    requires i < |ps|
    ensures Total(ps[i := p], f) == Total(ps, f) - f(ps[i]) + f(p) && Total(ps, f) >= f(ps[i])
  {
    if i == 0 {
      assert ps[0 := p][1..] == ps[1..];
    } else {
      TotalUpdate(ps[1..], i - 1, p, f);
      assert ps[i := p][1..] == ps[1..][i - 1 := p];
    }
  }

  lemma {:induction false} TotalZero(ps: seq<Phase>, f: Phase -> nat)
    ensures Total(ps, f) == 0 <==> forall p <- ps :: f(p) == 0
  {
    if ps != [] {
      TotalZero(ps[1..], f);
      assert ps == [ps[0]] + ps[1..];
    }
  }

  /** A queue holds each of the requests in a phase once and nothing else. */
  ghost predicate Lists(q: seq<nat>, ps: seq<Phase>, p: Phase) {
    && (forall a, b | 0 <= a < b < |q| :: q[a] != q[b])
    && (forall i <- q :: i < |ps| && ps[i] == p)
    && (forall i | 0 <= i < |ps| :: ps[i] == p ==> i in q)
  }

  ghost predicate LocksMatch(s: State, peers: seq<Peer>) {
    && |s.phases| == |peers|
    && (forall i | 0 <= i < |peers| :: s.phases[i].Running? ==> peers[i] in s.held)
    && (forall q <- s.held :: exists i | 0 <= i < |peers| :: s.phases[i].Running? && peers[i] == q)
    && (forall i, j | 0 <= i < j < |peers| :: s.phases[i].Running? && s.phases[j].Running? ==> peers[i] != peers[j])
  }

  /** Permits are conserved, queues are exact, and a peer's lock is held by its one running transfer. */
  ghost predicate Sound(s: State, permits: nat, peers: seq<Peer>) {
    && s.free + Total(s.phases, Holds) == permits
    && Lists(s.gate, s.phases, AtGate)
    && Lists(s.queue, s.phases, AtLock)
    && LocksMatch(s, peers)
  }

  lemma {:induction false} StartHoldsNothing(ps: seq<Phase>)
    requires forall k | 0 <= k < |ps| :: ps[k] == Idle
    ensures Total(ps, Holds) == 0 && Total(ps, Left) == 5 * |ps|
  {
    if ps != [] {
      StartHoldsNothing(ps[1..]);
    }
  }

  lemma StartSound(permits: nat, peers: seq<Peer>)
    ensures Sound(Start(permits, peers), permits, peers)
  {
    StartHoldsNothing(Start(permits, peers).phases);
  }

  /** Taking one request out of its queue leaves the others in order. */
  lemma WithoutLists(q: seq<nat>, ps: seq<Phase>, i: nat, was: Phase, now: Phase)
    requires Lists(q, ps, was) && i < |ps| && ps[i] == was && now != was
    ensures Lists(Without(q, i), ps[i := now], was)
  {
    hide Find, Without;
    WithoutDrops(q, i);
    var q' := Without(q, i);
    forall a, b | 0 <= a < b < |q'| ensures q'[a] != q'[b] {
      assert q'[a] == q[if a < Find(q, i) then a else a + 1] && q'[b] == q[if b < Find(q, i) then b else b + 1];
    }
  }

  lemma FoundAt(q: seq<nat>, i: nat)
    requires i in q
    ensures Find(q, i) < |q| && q[Find(q, i)] == i && i !in q[..Find(q, i)]
  {
    assert q[..|q|] == q;
  }

  lemma WithoutDrops(q: seq<nat>, i: nat)
    requires i in q && forall a, b | 0 <= a < b < |q| :: q[a] != q[b]
    ensures var k, q' := Find(q, i), Without(q, i);
            && |q'| == |q| - 1 && k < |q|
            && (forall a | 0 <= a < |q'| :: q'[a] == q[if a < k then a else a + 1])
            && (forall j :: j in q' <==> j in q && j != i)
  {
    var k, q' := Find(q, i), Without(q, i);
    FoundAt(q, i);
    hide Find;
    assert forall a | 0 <= a < |q'| :: q'[a] == q[if a < k then a else a + 1];
    hide Without;
    forall j | j in q' ensures j in q && j != i {
      var a :| 0 <= a < |q'| && q'[a] == j;
      assert q[if a < k then a else a + 1] == j;
    }
    forall j | j in q && j != i ensures j in q' {
      var a :| 0 <= a < |q| && q[a] == j;
      assert q'[if a < k then a else a - 1] == j;
    }
  }

  lemma AppendLists(q: seq<nat>, ps: seq<Phase>, i: nat, now: Phase)
    requires Lists(q, ps, now) && i < |ps| && ps[i] != now
    ensures Lists(q + [i], ps[i := now], now)
  {
  }

  lemma OtherLists(q: seq<nat>, ps: seq<Phase>, p: Phase, i: nat, now: Phase)
    requires Lists(q, ps, p) && i < |ps| && ps[i] != p && now != p
    ensures Lists(q, ps[i := now], p)
  {
  }

  lemma {:induction false} HeadIsWithout(q: seq<nat>)
    requires q != []
    ensures Without(q, q[0]) == q[1..]
  {
  }

  /** The request a step moves, and where to. */
  function Moved(s: State, peers: seq<Peer>, step: Step): (nat, Phase)
    requires Enabled(s, peers, step)
  {
    match step
    case Arrive(i) => (i, AtGate)
    case Admit => (s.gate[0], AtLock)
    case TakeLock(i) => (i, Running)
    case Unlock(i) => (i, Unlocked)
    case Leave(i) => (i, Ended(true))
    case Cancel(i) => (i, Ended(false))
  }

  lemma QueuesStayExact(s: State, permits: nat, peers: seq<Peer>, step: Step)
    requires Sound(s, permits, peers) && Enabled(s, peers, step)
    ensures var s' := Next(s, peers, step); Lists(s'.gate, s'.phases, AtGate) && Lists(s'.queue, s'.phases, AtLock)
  {
    hide Lists, LocksMatch, Without, FirstOfPeer;
    var (i, p) := Moved(s, peers, step);
    if step.Admit? {
      HeadIsListed(s.gate, s.phases, AtGate);
    }
    var was := s.phases[i];
    if was.AtGate? {
      WithoutLists(s.gate, s.phases, i, was, p);
    } else if p.AtGate? {
      AppendLists(s.gate, s.phases, i, p);
    } else {
      OtherLists(s.gate, s.phases, AtGate, i, p);
    }
    if was.AtLock? {
      WithoutLists(s.queue, s.phases, i, was, p);
    } else if p.AtLock? {
      AppendLists(s.queue, s.phases, i, p);
      HeadIsWithout(s.gate);
    } else {
      OtherLists(s.queue, s.phases, AtLock, i, p);
    }
  }

  lemma HeadIsListed(q: seq<nat>, ps: seq<Phase>, p: Phase)
    requires Lists(q, ps, p) && q != []
    ensures q[0] < |ps| && ps[q[0]] == p
  {
  }

  lemma TakingLockMatches(s: State, peers: seq<Peer>, i: nat)
    requires LocksMatch(s, peers) && i < |peers| && s.phases[i].AtLock? && peers[i] !in s.held
    ensures LocksMatch(s.(held := s.held + {peers[i]}, phases := s.phases[i := Running]), peers)
  {
    var s' := s.(held := s.held + {peers[i]}, phases := s.phases[i := Running]);
    forall q | q in s'.held ensures exists k | 0 <= k < |peers| :: s'.phases[k].Running? && peers[k] == q {
      var k :| 0 <= k < |peers| && (if q in s.held then s.phases[k].Running? && peers[k] == q else k == i);
      assert s'.phases[k].Running? && peers[k] == q;
    }
  }

  lemma DroppingLockMatches(s: State, peers: seq<Peer>, i: nat)
    requires LocksMatch(s, peers) && i < |peers| && s.phases[i].Running?
    ensures LocksMatch(s.(held := s.held - {peers[i]}, phases := s.phases[i := Unlocked]), peers)
  {
    var s' := s.(held := s.held - {peers[i]}, phases := s.phases[i := Unlocked]);
    forall q | q in s'.held ensures exists k | 0 <= k < |peers| :: s'.phases[k].Running? && peers[k] == q {
      var k :| 0 <= k < |peers| && s.phases[k].Running? && peers[k] == q;
      assert s'.phases[k].Running?;
    }
  }

  lemma OthersKeepLocks(s: State, s': State, peers: seq<Peer>, i: nat, p: Phase)
    requires LocksMatch(s, peers) && i < |peers| && !s.phases[i].Running? && !p.Running?
    requires s'.held == s.held && s'.phases == s.phases[i := p]
    ensures LocksMatch(s', peers)
  {
    forall q | q in s'.held ensures exists k | 0 <= k < |peers| :: s'.phases[k].Running? && peers[k] == q {
      var k :| 0 <= k < |peers| && s.phases[k].Running? && peers[k] == q;
      assert s'.phases[k].Running?;
    }
  }

  lemma LocksStayMatched(s: State, permits: nat, peers: seq<Peer>, step: Step)
    requires Sound(s, permits, peers) && Enabled(s, peers, step)
    ensures LocksMatch(Next(s, peers, step), peers)
  {
    hide Without, FirstOfPeer, LocksMatch, Find;
    SameLength(s, permits, peers);
    var (i, p) := Moved(s, peers, step);
    if step.TakeLock? {
      TakingLockMatches(s, peers, i);
      FramesLocks(s.(held := s.held + {peers[i]}, phases := s.phases[i := Running]), Next(s, peers, step), peers);
    } else if step.Unlock? {
      DroppingLockMatches(s, peers, i);
    } else {
      if step.Admit? {
        HeadIsListed(s.gate, s.phases, AtGate);
      }
      OthersKeepLocks(s, Next(s, peers, step), peers, i, p);
    }
  }

  lemma FramesLocks(s: State, s': State, peers: seq<Peer>)
    requires LocksMatch(s, peers) && s'.held == s.held && s'.phases == s.phases
    ensures LocksMatch(s', peers)
  {
  }

  /** Every step keeps the invariant and brings one request nearer its end. */
  lemma StepSound(s: State, permits: nat, peers: seq<Peer>, step: Step)
    requires Sound(s, permits, peers) && Enabled(s, peers, step)
    ensures var s' := Next(s, peers, step); Sound(s', permits, peers) && Total(s'.phases, Left) < Total(s.phases, Left)
  {
    hide LocksMatch, Without, FirstOfPeer, Find;
    QueuesStayExact(s, permits, peers, step);
    LocksStayMatched(s, permits, peers, step);
    var (i, p) := Moved(s, peers, step);
    TotalUpdate(s.phases, i, p, Holds);
    TotalUpdate(s.phases, i, p, Left);
  }

  // ----- Over runs -----

  ghost predicate Runs(s: State, peers: seq<Peer>, steps: seq<Step>)
    decreases |steps|
  {
    steps == [] || (Enabled(s, peers, steps[0]) && Runs(Next(s, peers, steps[0]), peers, steps[1..]))
  }

  function After(s: State, peers: seq<Peer>, steps: seq<Step>): State
    requires Runs(s, peers, steps)
    decreases |steps|
  {
    if steps == [] then s else After(Next(s, peers, steps[0]), peers, steps[1..])
  }

  /**
   Every run keeps the invariant and has at most as many steps as were left: with five steps a request, no
   schedule goes on for ever.
   */
  lemma {:induction false} RunsAreSound(s: State, permits: nat, peers: seq<Peer>, steps: seq<Step>)
    requires Sound(s, permits, peers) && Runs(s, peers, steps)
    ensures var s' := After(s, peers, steps);
            Sound(s', permits, peers) && |steps| + Total(s'.phases, Left) <= Total(s.phases, Left)
    ensures var s' := After(s, peers, steps);
            forall i | 0 <= i < |peers| :: s'.phases[i] == Ended(false) ==> s.phases[i] == Ended(false) || Cancel(i) in steps
    decreases |steps|
  {
    hide Sound, Next, Enabled, Total;
    if steps != [] {
      var mid := Next(s, peers, steps[0]);
      StepSound(s, permits, peers, steps[0]);
      StepCancels(s, peers, steps[0]);
      RunsAreSound(mid, permits, peers, steps[1..]);
      SameLength(mid, permits, peers);
    }
    SameLength(s, permits, peers);
    SameLength(After(s, peers, steps), permits, peers);
  }

  lemma StepCancels(s: State, peers: seq<Peer>, step: Step)
    requires Enabled(s, peers, step)
    ensures var s' := Next(s, peers, step);
            forall i | 0 <= i < |s'.phases| && i < |s.phases| ::
              s'.phases[i] == Ended(false) ==> s.phases[i] == Ended(false) || step == Cancel(i)
  {
    hide Without, FirstOfPeer;
  }

  lemma SameLength(s: State, permits: nat, peers: seq<Peer>)
    requires Sound(s, permits, peers)
    ensures |s.phases| == |peers|
  {
  }

  /** Never more holders than permits, never two transfers with one peer. */
  lemma SafeAlways(permits: nat, peers: seq<Peer>, steps: seq<Step>)
    requires Runs(Start(permits, peers), peers, steps)
    ensures var s := After(Start(permits, peers), peers, steps);
            && |s.phases| == |peers|
            && Total(s.phases, Holds) <= permits
            && forall i, j | 0 <= i < j < |peers| :: s.phases[i].Running? && s.phases[j].Running? ==> peers[i] != peers[j]
  {
    StartSound(permits, peers);
    RunsAreSound(Start(permits, peers), permits, peers, steps);
  }

  /** A step that is not a cancellation and can be taken now, as long as any request is unfinished. */
  lemma NoDeadlock(s: State, permits: nat, peers: seq<Peer>, i: nat) returns (step: Step)
    requires Sound(s, permits, peers) && permits >= 1
    requires i < |peers| && !s.phases[i].Ended?
    ensures Enabled(s, peers, step) && !step.Cancel?
  {
    hide Without;
    if s.phases[i].Idle? {
      step := Arrive(i);
    } else if j :| 0 <= j < |peers| && s.phases[j].Running? {
      step := Unlock(j);
    } else if j :| 0 <= j < |peers| && s.phases[j].Unlocked? {
      step := Leave(j);
    } else if s.queue != [] {
      HeadIsListed(s.queue, s.phases, AtLock);
      step := TakeLock(s.queue[0]);
      assert Find(s.queue, s.queue[0]) == 0;
      assert peers[s.queue[0]] !in s.held;
    } else {
      TotalZero(s.phases, Holds);
      assert i in s.gate;
      HeadIsListed(s.gate, s.phases, AtGate);
      step := Admit;
    }
  }

  /**
   However the steps were scheduled, once none but a cancellation is left to take: every request that did
   not give up was served, all permits are back, and no queue or lock holds anything.
   */
  lemma EveryScheduleEnds(permits: nat, peers: seq<Peer>, steps: seq<Step>)
    requires permits >= 1 && Runs(Start(permits, peers), peers, steps)
    ensures |steps| <= 5 * |peers|
    ensures var s := After(Start(permits, peers), peers, steps);
            && |s.phases| == |peers|
            && ((forall step: Step :: Enabled(s, peers, step) ==> step.Cancel?) ==>
                  && (forall i | 0 <= i < |peers| :: s.phases[i].Ended? && (Cancel(i) !in steps ==> s.phases[i].served))
                  && s.free == permits && s.gate == [] && s.queue == [] && s.held == {})
  {
    hide Runs, After, Without, Find, FirstOfPeer;
    var start := Start(permits, peers);
    StartSound(permits, peers);
    StartHoldsNothing(start.phases);
    RunsAreSound(start, permits, peers, steps);
    var s := After(start, peers, steps);
    if forall step: Step :: Enabled(s, peers, step) ==> step.Cancel? {
      forall i | 0 <= i < |peers| ensures s.phases[i].Ended? {
        if !s.phases[i].Ended? {
          var step := NoDeadlock(s, permits, peers, i);
        }
      }
      TotalZero(s.phases, Holds);
      if s.gate != [] {
        HeadIsListed(s.gate, s.phases, AtGate);
      }
      if s.queue != [] {
        HeadIsListed(s.queue, s.phases, AtLock);
      }
    }
  }

  // ----- First come, first served -----

  /** `x` waits before `y`. */
  ghost predicate Ahead(q: seq<nat>, x: nat, y: nat) {
    exists a, b | 0 <= a < b < |q| :: q[a] == x && q[b] == y
  }

  /** As long as `x`, which asked first, waits for a permit, `y` has none; and likewise for the lock of one peer. */
  ghost predicate Behind(s: State, peers: seq<Peer>, x: nat, y: nat) {
    && x < |s.phases| == |peers| && y < |peers| && !s.phases[x].Idle?
    && (s.phases[x].AtGate? ==>
          s.phases[y] in {Idle, Ended(false)} || (s.phases[y].AtGate? && Ahead(s.gate, x, y)))
    && (s.phases[x].AtLock? && peers[x] == peers[y] ==>
          s.phases[y] in {Idle, AtGate, Ended(false)} || (s.phases[y].AtLock? && Ahead(s.queue, x, y)))
  }

  lemma AheadAppend(q: seq<nat>, x: nat, y: nat, i: nat)
    ensures Ahead(q, x, y) ==> Ahead(q + [i], x, y)
    ensures x in q ==> Ahead(q + [i], x, i)
  {
    if Ahead(q, x, y) {
      var a, b :| 0 <= a < b < |q| && q[a] == x && q[b] == y;
      assert (q + [i])[a] == x && (q + [i])[b] == y;
    }
    if x in q {
      var a :| 0 <= a < |q| && q[a] == x;
      assert (q + [i])[a] == x && (q + [i])[|q|] == i;
    }
  }

  lemma AheadWithout(q: seq<nat>, x: nat, y: nat, i: nat)
    requires (forall a, b | 0 <= a < b < |q| :: q[a] != q[b]) && i in q && i != x && i != y && Ahead(q, x, y)
    ensures Ahead(Without(q, i), x, y)
  {
    hide Find, Without;
    WithoutDrops(q, i);
    var a, b :| 0 <= a < b < |q| && q[a] == x && q[b] == y;
    var k, q' := Find(q, i), Without(q, i);
    assert q[k] == i by { FoundAt(q, i); }
    assert q'[if a < k then a else a - 1] == x && q'[if b < k then b else b - 1] == y;
  }

  /** Of two waiters the later one is not the first of a gate, and not the first of its peer. */
  lemma LaterIsNotFirst(q: seq<nat>, x: nat, y: nat)
    requires (forall a, b | 0 <= a < b < |q| :: q[a] != q[b]) && Ahead(q, x, y)
    ensures x in q && y in q && x != y && q[0] != y && x in q[..Find(q, y)]
  {
    hide Find;
    var a, b :| 0 <= a < b < |q| && q[a] == x && q[b] == y;
    FoundAt(q, y);
    assert Find(q, y) == b;
    assert q[..b][a] == x;
  }

  lemma FirstIff(s: State, permits: nat, peers: seq<Peer>, i: nat)
    requires Sound(s, permits, peers) && i < |peers| && s.phases[i].AtLock?
    ensures FirstOfPeer(s, peers, i) <==> forall j: nat | Ahead(s.queue, j, i) :: j < |peers| && peers[j] != peers[i]
  {
    hide Find, Total;
    var q := s.queue;
    FoundAt(q, i);
    var before := q[..Find(q, i)];
    forall j: nat ensures j in before <==> Ahead(q, j, i) {
      if Ahead(q, j, i) {
        LaterIsNotFirst(q, j, i);
      }
      if j in before {
        var a :| 0 <= a < |before| && before[a] == j;
        assert q[a] == j && q[Find(q, i)] == i;
      }
    }
    forall j | j in before ensures j < |peers| {
      assert j in q;
    }
    hide Ahead;
    if FirstOfPeer(s, peers, i) {
      forall j: nat | Ahead(q, j, i) ensures j < |peers| && peers[j] != peers[i] {
        assert j in before;
      }
    }
  }

  /** A peer's lock goes to a waiter exactly if no transfer with that peer runs and none of its waiters came first. */
  lemma LockIff(s: State, permits: nat, peers: seq<Peer>, i: nat)
    requires Sound(s, permits, peers)
    ensures Enabled(s, peers, TakeLock(i)) <==>
            && i < |peers| && s.phases[i].AtLock?
            && (forall j | 0 <= j < |peers| :: s.phases[j].Running? ==> peers[j] != peers[i])
            && (forall j: nat | Ahead(s.queue, j, i) :: j < |peers| && peers[j] != peers[i])
  {
    hide Find, Total, Ahead, FirstOfPeer;
    if i < |peers| && s.phases[i].AtLock? {
      FirstIff(s, permits, peers, i);
    }
  }

  lemma ArrivalKeepsBehind(s: State, permits: nat, peers: seq<Peer>, i: nat, x: nat, y: nat)
    requires Sound(s, permits, peers) && Behind(s, peers, x, y) && x != y && Enabled(s, peers, Arrive(i))
    ensures Behind(Next(s, peers, Arrive(i)), peers, x, y)
  {
    hide Ahead, LocksMatch, Total;
    AheadAppend(s.gate, x, y, i);
  }

  lemma AdmissionKeepsBehind(s: State, permits: nat, peers: seq<Peer>, x: nat, y: nat)
    requires Sound(s, permits, peers) && Behind(s, peers, x, y) && x != y && Enabled(s, peers, Admit)
    ensures Behind(Next(s, peers, Admit), peers, x, y)
  {
    hide Ahead, LocksMatch, Total, Without, Find;
    HeadIsListed(s.gate, s.phases, AtGate);
    AheadAppend(s.queue, x, y, s.gate[0]);
    if s.phases[x].AtLock? {
      assert x in s.queue;
    }
    hide Lists;
    if Ahead(s.gate, x, y) {
      AheadInGate(s, permits, peers, x, y);
    }
  }

  lemma AheadInGate(s: State, permits: nat, peers: seq<Peer>, x: nat, y: nat)
    requires Sound(s, permits, peers) && Ahead(s.gate, x, y)
    ensures s.gate[0] != y && (s.gate[0] != x ==> Ahead(s.gate[1..], x, y))
  {
    hide Ahead, LocksMatch, Total, Without, Find;
    LaterIsNotFirst(s.gate, x, y);
    if s.gate[0] != x {
      HeadIsWithout(s.gate);
      AheadWithout(s.gate, x, y, s.gate[0]);
    }
  }

  lemma LeavingKeepsBehind(s: State, permits: nat, peers: seq<Peer>, step: Step, x: nat, y: nat)
    requires Sound(s, permits, peers) && Behind(s, peers, x, y) && x != y
    requires Enabled(s, peers, step) && !step.Arrive? && !step.Admit?
    ensures Behind(Next(s, peers, step), peers, x, y)
  {
    hide Ahead, LocksMatch, Total, Find, Without;
    if (step.TakeLock? || step.Cancel?) && step.i != x {
      var i := step.i;
      if Ahead(s.queue, x, y) {
        LaterIsNotFirst(s.queue, x, y);
        if i != y && i in s.queue {
          AheadWithout(s.queue, x, y, i);
        }
      }
      if Ahead(s.gate, x, y) && i != y && i in s.gate {
        AheadWithout(s.gate, x, y, i);
      }
    }
  }

  lemma {:induction false} RunsKeepBehind(s: State, permits: nat, peers: seq<Peer>, steps: seq<Step>, x: nat, y: nat)
    requires Sound(s, permits, peers) && Behind(s, peers, x, y) && x != y && Runs(s, peers, steps)
    ensures Behind(After(s, peers, steps), peers, x, y)
    decreases |steps|
  {
    hide Sound, Next, Enabled, Behind;
    if steps != [] {
      StepSound(s, permits, peers, steps[0]);
      if steps[0].Arrive? {
        ArrivalKeepsBehind(s, permits, peers, steps[0].i, x, y);
      } else if steps[0].Admit? {
        AdmissionKeepsBehind(s, permits, peers, x, y);
      } else {
        LeavingKeepsBehind(s, permits, peers, steps[0], x, y);
      }
      RunsKeepBehind(Next(s, peers, steps[0]), permits, peers, steps[1..], x, y);
    }
  }

  /**
   No overtaking, on any run from a moment when `x` has asked and `y` has not: while `x` waits for a permit
   `y` gets none, and while `x` waits for its peer's lock `y` does not get that lock.
   */
  lemma FirstComeFirstServed(s: State, permits: nat, peers: seq<Peer>, steps: seq<Step>, x: nat, y: nat)
    requires Sound(s, permits, peers) && Runs(s, peers, steps) && x < |peers| && y < |peers|
    requires !s.phases[x].Idle? && s.phases[y].Idle?
    ensures var phases := After(s, peers, steps).phases;
            && |phases| == |peers|
            && (phases[x].AtGate? ==> phases[y] in {Idle, AtGate, Ended(false)})
            && (phases[x].AtLock? && peers[x] == peers[y] ==> phases[y] in {Idle, AtGate, AtLock, Ended(false)})
  {
    hide Runs, After, Sound, Ahead;
    SameLength(s, permits, peers);
    RunsKeepBehind(s, permits, peers, steps, x, y);
  }

  /** The gate and the locks themselves. */
  class Gate {
    const peers: seq<Peer>
    const permits: nat
    var free: nat
    var gate: seq<nat>
    var queue: seq<nat>
    var held: set<Peer>
    var phases: seq<Phase>

    function View(): State
      reads this
    {
      State(free, gate, queue, held, phases)
    }

    ghost predicate Valid()
      reads this
    {
      Sound(View(), permits, peers)
    }

    constructor (permits: nat, peers: seq<Peer>)
      ensures Valid() && this.permits == permits && this.peers == peers && View() == Start(permits, peers)
    {
      this.permits, this.peers := permits, peers;
      free, gate, queue, held, phases := permits, [], [], {}, seq(|peers|, _ => Idle);
      new;
      StartSound(permits, peers);
    }

    /** Asking for a slot. */
    method Ask(i: nat)
      requires Valid() && i < |peers| && In(View(), i, Idle)
      modifies this
      ensures Valid() && View() == Next(old(View()), peers, Arrive(i))
    {
      StepSound(View(), permits, peers, Arrive(i));
      gate := gate + [i];
      phases := phases[i := AtGate];
    }

    /** The semaphore hands a free permit to the longest waiter, who then asks for its peer's lock. */
    method Poll() returns (admitted: bool)
      requires Valid()
      modifies this
      ensures Valid() && admitted == Enabled(old(View()), peers, Admit)
      ensures View() == if admitted then Next(old(View()), peers, Admit) else old(View())
    {
      if gate == [] || free == 0 {
        return false;
      }
      HeadIsListed(gate, phases, AtGate);
      StepSound(View(), permits, peers, Admit);
      var i := gate[0];
      free, gate, queue := free - 1, gate[1..], queue + [i];
      phases := phases[i := AtLock];
      admitted := true;
    }

    method Lock(i: nat) returns (locked: bool)
      requires Valid()
      modifies this
      ensures Valid() && locked == Enabled(old(View()), peers, TakeLock(i))
      ensures View() == if locked then Next(old(View()), peers, TakeLock(i)) else old(View())
    {
      SameLength(View(), permits, peers);
      if !(i < |peers| && phases[i].AtLock? && peers[i] !in held && FirstOfPeer(View(), peers, i)) {
        return false;
      }
      StepSound(View(), permits, peers, TakeLock(i));
      queue := Without(queue, i);
      held := held + {peers[i]};
      phases := phases[i := Running];
      locked := true;
    }

    /** The transfer is over: the peer's lock is dropped, then the permit. */
    method Finish(i: nat)
      requires Valid() && i < |peers| && In(View(), i, Running)
      modifies this
      ensures Valid()
      ensures var mid := Next(old(View()), peers, Unlock(i));
              Enabled(mid, peers, Leave(i)) && View() == Next(mid, peers, Leave(i))
    {
      StepSound(View(), permits, peers, Unlock(i));
      held := held - {peers[i]};
      phases := phases[i := Unlocked];
      StepSound(View(), permits, peers, Leave(i));
      free := free + 1;
      phases := phases[i := Ended(true)];
    }

    /** Giving up while waiting, be it for the permit or the lock. */
    method GiveUp(i: nat)
      requires Valid() && i < |peers| && (In(View(), i, AtGate) || In(View(), i, AtLock))
      modifies this
      ensures Valid() && View() == Next(old(View()), peers, Cancel(i))
    {
      StepSound(View(), permits, peers, Cancel(i));
      if phases[i].AtGate? {
        gate := Without(gate, i);
      } else {
        free, queue := free + 1, Without(queue, i);
      }
      phases := phases[i := Ended(false)];
    }
  }
}
