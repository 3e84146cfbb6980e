/**
 What pairing comes to: how often success is reported, when both sides end up trusting each other, and what
 a removal of trust leaves behind.
 */
module PairingOutcomes {
  import opened Prelude
  import opened PairingMachines
  import opened Pairing

  // ----- Reports -----

  /** Completions that have passed the look at the trust list and will still report. */
  function Owed(ts: seq<Task>): nat {
    if ts == [] then 0 else Owed(ts[..|ts| - 1]) + if ts[|ts| - 1].Clear? || ts[|ts| - 1].Write? then 1 else 0
  }

  /** A look at the trust list that finds no trust. */
  predicate Passes(s: System, st: Step, n: Node) {
    Checks(s, st, n) && !Get(s, n).end.trusted
  }

  /** How reports, and reports still owed, follow from what a step does. */
  predicate Accounts(l: Local, l': Local, wrote: bool, passed: bool) {
    && l'.end.okReports == l.end.okReports + (if wrote then 1 else 0)
    && l'.end.okReports + Owed(l'.tasks) == l.end.okReports + Owed(l.tasks) + (if passed then 1 else 0)
  }

  lemma OwedSnoc(ts: seq<Task>, t: Task)
    ensures Owed(ts + [t]) == Owed(ts) + if t.Clear? || t.Write? then 1 else 0
  {
    assert (ts + [t])[..|ts|] == ts;
  }

  lemma {:induction false} OwedWithout(ts: seq<Task>, i: nat)
    requires i < |ts|
    ensures Owed(ts) == Owed(ts[..i] + ts[i + 1..]) + if ts[i].Clear? || ts[i].Write? then 1 else 0
  {
    var init, last := ts[..|ts| - 1], ts[|ts| - 1];
    assert ts == init + [last];
    if i < |ts| - 1 {
      OwedWithout(init, i);
      assert ts[..i] + ts[i + 1..] == (init[..i] + init[i + 1..]) + [last];
      OwedSnoc(init[..i] + init[i + 1..], last);
    } else {
      assert ts[..i] + ts[i + 1..] == init;
    }
  }

  lemma WorkAccounts(l: Local, i: nat)
    requires i < |l.tasks|
    ensures Accounts(l, WorkedLocal(l, i), l.tasks[i].Write?, l.tasks[i].Finish? && !l.end.trusted)
  {
    hide Owed;
    var rest := l.tasks[..i] + l.tasks[i + 1..];
    OwedWithout(l.tasks, i);
    var l' := WorkedLocal(l, i);
    if |l'.tasks| > |rest| {
      OwedSnoc(rest, l'.tasks[|rest|]);
      assert l'.tasks == rest + [l'.tasks[|rest|]];
    }
  }

  lemma HandledAccounts(l: Local, c: Conn, m: Msg)
    ensures Accounts(l, HandledLocal(l, c, m), false, false)
  {
    hide Owed;
    OwedSnoc(l.tasks, Finish(Some(c)));
  }

  lemma OthersAccount(s: System, st: Step, n: Node)
    requires Enabled(s, st) && !st.Deliver? && !st.Work?
    ensures Accounts(Get(s, n), Get(Next(s, st), n), false, false)
  {
    hide Owed, Push, Queue;
    OwedSnoc(Get(s, n).tasks, Release);
  }

  lemma StepAccounts(s: System, st: Step, n: Node)
    requires Enabled(s, st)
    ensures Accounts(Get(s, n), Get(Next(s, st), n), Writes(s, st, n), Passes(s, st, n))
  {
    if st.Work? {
      WorkAccounts(Get(s, st.n), st.i);
    } else if st.Deliver? {
      HandledAccounts(Get(s, st.n), st.c, Queue(s.wire, Port(Other(st.n), st.c))[0]);
    } else {
      OthersAccount(s, st, n);
    }
  }

  /** How many looks at the trust list found no trust, in the first `k` steps. */
  function PassedChecks(ss: seq<System>, steps: seq<Step>, n: Node, k: nat): nat
    requires k <= |steps| <= |ss|
  {
    if k == 0 then 0 else PassedChecks(ss, steps, n, k - 1) + if Passes(ss[k - 1], steps[k - 1], n) then 1 else 0
  }

  /** On every run, trust removed or not: each look that found no trust is reported once, or will be. */
  lemma {:induction false} ReportsArePassedChecks(ss: seq<System>, steps: seq<Step>, n: Node, k: nat)
    requires Run(ss, steps) && k <= |steps|
    ensures Get(ss[k], n).end.okReports + Owed(Get(ss[k], n).tasks) == PassedChecks(ss, steps, n, k)
  {
    if k > 0 {
      hide Enabled, Next, Owed, Passes;
      ReportsArePassedChecks(ss, steps, n, k - 1);
      StepAccounts(ss[k - 1], steps[k - 1], n);
    }
  }

  /** No trust is written by `n` in the first `k` steps. */
  ghost predicate NoWriteBefore(ss: seq<System>, steps: seq<Step>, n: Node, k: nat)
    requires k <= |steps| <= |ss|
  {
    forall w | 0 <= w < k :: !Writes(ss[w], steps[w], n)
  }

  ghost predicate Keeping(steps: seq<Step>) {
    forall st <- steps :: !st.RemoveTrust?
  }

  /** Two looks at the trust list, the second before the first write. */
  ghost predicate LooksOverlap(ss: seq<System>, steps: seq<Step>, n: Node, i: nat, j: nat)
    requires |steps| <= |ss|
  {
    i < j < |steps| && Checks(ss[i], steps[i], n) && Checks(ss[j], steps[j], n) && NoWriteBefore(ss, steps, n, j)
  }

  // ----- Without removal: what is announced is kept -----

  predicate HasCompletion(ts: seq<Task>) {
    exists t <- ts :: Completes(t)
  }

  /** Trust is written, or the completion that will write it is under way. */
  predicate Settled(s: System, n: Node) {
    Get(s, n).end.trusted || HasCompletion(Get(s, n).tasks)
  }

  predicate Covered(s: System, p: Port, m: Msg) {
    !m.TrustBroken? && (m == PairResult(true) ==> Settled(s, p.node))
  }

  /** An announced success is covered by its sender, and no word of a removal is about. */
  ghost predicate Paid(s: System) {
    && (forall p, m | p in s.outbox && m in s.outbox[p] :: !m.TrustBroken? && !m.PairResult?)
    && (forall p, m | p in s.wire && m in s.wire[p] :: Covered(s, p, m))
  }

  /** Trust, and the completion that will write it, are kept. */
  predicate LocalKeeps(l: Local, l': Local) {
    && (l.end.trusted ==> l'.end.trusted)
    && (HasCompletion(l.tasks) ==> HasCompletion(l'.tasks) || l'.end.trusted)
  }

  lemma HandledKeeps(l: Local, c: Conn, m: Msg)
    requires !m.TrustBroken?
    ensures LocalKeeps(l, HandledLocal(l, c, m))
  {
    if HasCompletion(l.tasks) {
      var t :| t in l.tasks && Completes(t);
      assert t in HandledLocal(l, c, m).tasks;
    }
  }

  lemma WorkedKeeps(l: Local, i: nat)
    requires i < |l.tasks|
    ensures LocalKeeps(l, WorkedLocal(l, i))
  {
    var rest, l' := l.tasks[..i] + l.tasks[i + 1..], WorkedLocal(l, i);
    if HasCompletion(l.tasks) && !l'.end.trusted {
      var j :| 0 <= j < |l.tasks| && Completes(l.tasks[j]);
      if j == i {
        assert Completes(l'.tasks[|rest|]) && l'.tasks[|rest|] in l'.tasks;
      } else {
        assert rest[if j < i then j else j - 1] == l.tasks[j] && l.tasks[j] in l'.tasks;
      }
    }
  }

  lemma OthersKeep(s: System, st: Step, n: Node)
    requires Enabled(s, st) && !st.RemoveTrust? && !st.Deliver? && !st.Work?
    ensures LocalKeeps(Get(s, n), Get(Next(s, st), n))
  {
    StepRecords(s, st, n);
    TasksStay(s, st, n);
    var l, l' := Get(s, n), Get(Next(s, st), n);
    if HasCompletion(l.tasks) {
      var t :| t in l.tasks && Completes(t);
      assert t in l'.tasks;
    }
  }

  lemma TasksStay(s: System, st: Step, n: Node)
    requires Enabled(s, st) && !st.Deliver? && !st.Work?
    ensures Get(Next(s, st), n).tasks == Get(s, n).tasks + if st.Grant? && st.n == n then [Release] else []
  {
    hide Push, Queue, AfterGate, AfterLoop;
  }

  lemma SettledStays(s: System, st: Step, n: Node)
    requires Paid(s) && Enabled(s, st) && !st.RemoveTrust?
    ensures LocalKeeps(Get(s, n), Get(Next(s, st), n))
  {
    if st.Deliver? {
      var p := Port(Other(st.n), st.c);
      var q := Queue(s.wire, p);
      assert q[0] in s.wire[p] && Covered(s, p, q[0]);
      HandledKeeps(Get(s, st.n), st.c, q[0]);
    } else if st.Work? {
      WorkedKeeps(Get(s, st.n), st.i);
    } else {
      OthersKeep(s, st, n);
    }
  }

  lemma PushAdds(q: map<Port, seq<Msg>>, p: Port, m: Msg)
    ensures forall p', m' | p' in Push(q, p, m) && m' in Push(q, p, m)[p'] ::
              (p' in q && m' in q[p']) || (p' == p && m' == m)
  {
  }

  lemma PopTakes(q: map<Port, seq<Msg>>, p: Port)
    requires Queue(q, p) != []
    ensures q[p][0] in q[p]
    ensures forall p', m' | p' in q[p := q[p][1..]] && m' in q[p := q[p][1..]][p'] :: p' in q && m' in q[p']
  {
  }

  /** A loop answers success only together with the completion it begins. */
  predicate MayAdd(s': System, p: Port, m: Msg) {
    !m.TrustBroken? && (m == PairResult(true) ==> HasCompletion(Get(s', p.node).tasks))
  }

  lemma HandledAdds(s: System, n: Node, c: Conn, m: Msg)
    ensures var s' := Handled(s, n, c, m);
            && s'.outbox == s.outbox
            && forall p', m' | p' in s'.wire && m' in s'.wire[p'] ::
                 (p' in s.wire && m' in s.wire[p']) || MayAdd(s', p', m')
  {
    var l := Get(s, n);
    if Reply(l, m).Some? {
      PushAdds(s.wire, Port(n, c), Reply(l, m).value);
      if Reply(l, m).value == PairResult(true) {
        var ts := Get(Handled(s, n, c, m), n).tasks;
        assert ts[|l.tasks|] == Finish(Some(c)) && ts[|l.tasks|] in ts && Completes(ts[|l.tasks|]);
      }
    }
  }

  /** What a step other than trust removal may add to the queues. */
  ghost predicate AddsOnly(s: System, s': System) {
    && (forall p, m | p in s'.outbox && m in s'.outbox[p] :: !m.TrustBroken? && !m.PairResult?)
    && (forall p, m | p in s'.wire && m in s'.wire[p] :: (p in s.wire && m in s.wire[p]) || MayAdd(s', p, m))
  }

  lemma SendAdds(s: System, s1: System, n: Node, m: Msg)
    requires Paid(s) && s1.outbox == s.outbox && s1.wire == s.wire && Get(s1, n).end.session.Some?
    requires !m.TrustBroken? && !m.PairResult?
    ensures AddsOnly(s, SendCtrl(s1, n, m))
  {
    PushAdds(s.outbox, Port(n, Get(s1, n).end.session.value.conn), m);
  }

  lemma FlushAdds(s: System, n: Node, c: Conn)
    requires Paid(s) && Enabled(s, Flush(n, c))
    ensures AddsOnly(s, Next(s, Flush(n, c)))
  {
    PopTakes(s.outbox, Port(n, c));
    PushAdds(s.wire, Port(n, c), s.outbox[Port(n, c)][0]);
  }

  lemma DeliverAdds(s: System, n: Node, c: Conn)
    requires Paid(s) && Enabled(s, Deliver(n, c))
    ensures AddsOnly(s, Next(s, Deliver(n, c)))
  {
    hide Handled, MayAdd;
    var p := Port(Other(n), c);
    PopTakes(s.wire, p);
    HandledAdds(s.(wire := s.wire[p := s.wire[p][1..]]), n, c, s.wire[p][0]);
  }

  lemma DisconnectAdds(s: System, n: Node)
    requires Paid(s) && Enabled(s, Disconnect(n))
    ensures AddsOnly(s, Next(s, Disconnect(n)))
  {
    SendAdds(s, s, n, Goodbye);
  }

  lemma NewMessages(s: System, st: Step)
    requires Paid(s) && Enabled(s, st) && !st.RemoveTrust?
    ensures AddsOnly(s, Next(s, st))
  {
    hide SendCtrl, Handled, MayAdd, Busy;
    match st
    case Flush(n, c) => FlushAdds(s, n, c);
    case Deliver(n, c) => DeliverAdds(s, n, c);
    case Submit(n, code) =>
      SendAdds(s, Put(s, n, Get(s, n).(submitted := Get(s, n).submitted + {code})), n, PairCodeSubmit(code));
    case Grant(n, code) =>
      var l := Get(s, n);
      var l' := l.(end := AfterGrant(l.end, code), granted := l.granted + {code}, tasks := l.tasks + [Release]);
      SendAdds(s, Put(s, n, l'), n, ConsentGrant);
    case Deny(n) => SendAdds(s, s, n, ConsentDeny);
    case Cancel(n) => SendAdds(s, s, n, ConsentCancel);
    case Disconnect(n) => DisconnectAdds(s, n);
    case _ => SilentAdds(s, st);
  }

  /** Steps that put nothing into a queue. */
  lemma SilentAdds(s: System, st: Step)
    requires Paid(s) && Enabled(s, st)
    requires st.Dial? || st.Sample? || st.Attach? || st.GateTimeout? || st.Lose? || st.Work?
    ensures AddsOnly(s, Next(s, st))
  {
    hide WorkedLocal, AfterGate, AfterLoop, Busy;
  }

  lemma AddedIsCovered(s: System, p: Port, m: Msg)
    requires MayAdd(s, p, m)
    ensures Covered(s, p, m)
  {
  }

  lemma StepPaid(s: System, st: Step)
    requires Paid(s) && Enabled(s, st) && !st.RemoveTrust?
    ensures Paid(Next(s, st))
  {
    hide Next, Enabled, MayAdd;
    var s' := Next(s, st);
    NewMessages(s, st);
    forall p, m | p in s'.wire && m in s'.wire[p]
      ensures Covered(s', p, m)
    {
      if p in s.wire && m in s.wire[p] {
        assert Covered(s, p, m);
        SettledStays(s, st, p.node);
      } else {
        AddedIsCovered(s', p, m);
      }
    }
  }

  lemma {:induction false} RunsArePaid(ss: seq<System>, steps: seq<Step>, k: nat)
    requires Run(ss, steps) && Keeping(steps) && k <= |steps|
    ensures Paid(ss[k])
  {
    hide Next, Enabled;
    if k > 0 {
      RunsArePaid(ss, steps, k - 1);
      StepPaid(ss[k - 1], steps[k - 1]);
    }
  }

  lemma {:induction false} SettledForGood(ss: seq<System>, steps: seq<Step>, i: nat, k: nat, n: Node)
    requires Run(ss, steps) && Keeping(steps) && i <= k <= |steps|
    requires Settled(ss[i], n)
    ensures Settled(ss[k], n) && (Get(ss[i], n).end.trusted ==> Get(ss[k], n).end.trusted)
  {
    if i < k {
      hide Next, Enabled;
      SettledForGood(ss, steps, i, k - 1, n);
      RunsArePaid(ss, steps, k - 1);
      SettledStays(ss[k - 1], steps[k - 1], n);
    }
  }

  // ----- When success is reported twice -----

  /** Without removal a node trusts from its first write on. */
  lemma {:induction false} TrustedIffWritten(ss: seq<System>, steps: seq<Step>, n: Node, k: nat)
    requires Run(ss, steps) && Keeping(steps) && k <= |steps|
    ensures Get(ss[k], n).end.trusted <==> Get(ss[0], n).end.trusted || !NoWriteBefore(ss, steps, n, k)
  {
    if k > 0 {
      hide Next, Enabled, Writes;
      TrustedIffWritten(ss, steps, n, k - 1);
      RunsArePaid(ss, steps, k - 1);
      StepRecords(ss[k - 1], steps[k - 1], n);
      NoUntrust(ss[k - 1], steps[k - 1], n);
      assert NoWriteBefore(ss, steps, n, k) <==> NoWriteBefore(ss, steps, n, k - 1) && !Writes(ss[k - 1], steps[k - 1], n);
    }
  }

  lemma NoUntrust(s: System, st: Step, n: Node)
    requires Paid(s) && !st.RemoveTrust?
    ensures !Untrusts(s, st, n)
  {
    if st.Deliver? && Head(s, st.n, st.c).Some? {
      var p := Port(Other(st.n), st.c);
      assert s.wire[p][0] in s.wire[p] && Covered(s, p, s.wire[p][0]);
    }
  }

  lemma {:induction false} PassedCount(ss: seq<System>, steps: seq<Step>, n: Node, k: nat)
    requires k <= |steps| <= |ss|
    ensures PassedChecks(ss, steps, n, k) >= 1 <==> exists i | 0 <= i < k :: Passes(ss[i], steps[i], n)
    ensures PassedChecks(ss, steps, n, k) >= 2 <==>
            exists i, j | 0 <= i < j < k :: Passes(ss[i], steps[i], n) && Passes(ss[j], steps[j], n)
  {
    hide Passes;
    if k > 0 {
      PassedCount(ss, steps, n, k - 1);
    }
  }

  /**
   The exact condition for a second report, in runs without removal: two completions of a node's have
   both looked at the trust list before either wrote trust. The count includes reports still owed by
   completions past their look; once no completion is under way it is the reports made.
   */
  lemma SecondReportIffLooksOverlap(ss: seq<System>, steps: seq<Step>, n: Node)
    requires Run(ss, steps) && Keeping(steps)
    ensures var l := Get(ss[|steps|], n);
            && (l.end.okReports + Owed(l.tasks) >= 2 <==>
                  !Get(ss[0], n).end.trusted && exists i, j :: LooksOverlap(ss, steps, n, i, j))
            && (!HasCompletion(l.tasks) ==> Owed(l.tasks) == 0)
  {
    hide Checks, Next, Enabled;
    ReportsArePassedChecks(ss, steps, n, |steps|);
    PassedCount(ss, steps, n, |steps|);
    NothingOwed(Get(ss[|steps|], n).tasks);
    forall i | 0 <= i < |steps|
      ensures Passes(ss[i], steps[i], n) <==>
              Checks(ss[i], steps[i], n) && !Get(ss[0], n).end.trusted && NoWriteBefore(ss, steps, n, i)
    {
      TrustedIffWritten(ss, steps, n, i);
    }
    if i, j :| LooksOverlap(ss, steps, n, i, j) {
      assert NoWriteBefore(ss, steps, n, i);
    }
    if i, j :| 0 <= i < j < |steps| && Passes(ss[i], steps[i], n) && Passes(ss[j], steps[j], n) {
      assert LooksOverlap(ss, steps, n, i, j);
    }
  }

  lemma {:induction false} NothingOwed(ts: seq<Task>)
    ensures !HasCompletion(ts) ==> Owed(ts) == 0
  {
    if ts != [] && !HasCompletion(ts) {
      var init, last := ts[..|ts| - 1], ts[|ts| - 1];
      assert last in ts && forall t <- init :: t in ts;
      NothingOwed(init);
    }
  }

  // ----- Two-way trust -----

  /** A told success leaves its hearer settled, and its teller is. */
  lemma ToldIsSettled(s: System, n: Node, c: Conn)
    requires Paid(s) && Enabled(s, Deliver(n, c)) && Head(s, n, c) == Some(PairResult(true))
    ensures Settled(Next(s, Deliver(n, c)), n) && Settled(s, Other(n))
  {
    var p := Port(Other(n), c);
    assert s.wire[p][0] in s.wire[p] && Covered(s, p, s.wire[p][0]);
    var ts := Get(Next(s, Deliver(n, c)), n).tasks;
    assert ts[|ts| - 1] == Finish(Some(c)) && ts[|ts| - 1] in ts && Completes(ts[|ts| - 1]);
  }

  /**
   From the delivery of `PairResult{ok:true}` on, whatever becomes of the session entries, both sides
   trust each other or are in the middle of the completion that writes trust; once no completion is
   under way, both do.
   */
  lemma DeliveredResultIsMutual(ss: seq<System>, steps: seq<Step>, i: nat, n: Node)
    requires Run(ss, steps) && Keeping(steps) && i < |steps|
    requires steps[i].Deliver? && Head(ss[i], steps[i].n, steps[i].c) == Some(PairResult(true))
    ensures var s := ss[|steps|]; Settled(s, n) && (!HasCompletion(Get(s, n).tasks) ==> Get(s, n).end.trusted)
  {
    hide Next, Enabled;
    RunsArePaid(ss, steps, i);
    ToldIsSettled(ss[i], steps[i].n, steps[i].c);
    if n == steps[i].n {
      SettledForGood(ss, steps, i + 1, |steps|, n);
    } else {
      SettledForGood(ss, steps, i, |steps|, n);
    }
  }

  /** A step in which a grant finds its stored code right. */
  predicate MatchesStored(s: System, st: Step) {
    && st.Work? && st.i < |Get(s, st.n).tasks| && Get(s, st.n).tasks[st.i].JudgeStored?
    && Judged(Get(s, st.n).end, Get(s, st.n).tasks[st.i].code).1.Matched?
  }

  /** A step in which a control loop finds a code right. */
  predicate MatchesSent(s: System, st: Step) {
    && st.Deliver? && Head(s, st.n, st.c).Some? && Head(s, st.n, st.c).value.PairCodeSubmit?
    && AfterSubmit(Get(s, st.n).end, Head(s, st.n, st.c).value.code).1.Matched?
  }

  ghost predicate UnderWay(s: System, n: Node) {
    exists p :: p in s.wire && p.node == n && PairResult(true) in s.wire[p]
  }

  /** A settled node's success is known to the other side, or on its way there. */
  ghost predicate Known(s: System, n: Node) {
    Settled(s, n) ==> Settled(s, Other(n)) || UnderWay(s, n)
  }

  lemma NewlySettled(s: System, st: Step, n: Node)
    requires Paid(s) && Enabled(s, st) && !st.RemoveTrust? && !MatchesStored(s, st)
    requires !Settled(s, n) && Settled(Next(s, st), n)
    ensures st.Deliver? && st.n == n && (MatchesSent(s, st) || Head(s, n, st.c) == Some(PairResult(true)))
  {
    StepRecords(s, st, n);
    if st.Work? && st.n == n {
      WorkSettles(Get(s, st.n), st.i);
    } else if !st.Deliver? {
      TasksStay(s, st, n);
    } else if st.n == n && !MatchesSent(s, st) && Head(s, n, st.c) != Some(PairResult(true)) {
      HandledSettles(Get(s, n), st.c, Head(s, n, st.c).value);
    }
  }

  lemma WorkSettles(l: Local, i: nat)
    requires i < |l.tasks| && !HasCompletion(l.tasks)
    requires l.tasks[i].JudgeStored? ==> !Judged(l.end, l.tasks[i].code).1.Matched?
    ensures !HasCompletion(WorkedLocal(l, i).tasks) && WorkedLocal(l, i).end.trusted == l.end.trusted
  {
    var rest := l.tasks[..i] + l.tasks[i + 1..];
    assert l.tasks[i] in l.tasks;
    forall t | t in WorkedLocal(l, i).tasks ensures !Completes(t) {
      if t in rest { assert t in l.tasks; }
    }
  }

  lemma HandledSettles(l: Local, c: Conn, m: Msg)
    requires !HasCompletion(l.tasks) && m != PairResult(true)
    requires m.PairCodeSubmit? ==> !AfterSubmit(l.end, m.code).1.Matched?
    ensures HandledLocal(l, c, m).tasks == l.tasks
  {
  }

  /** An answer of success is on the wire. */
  lemma MatchAnswers(s: System, n: Node, c: Conn)
    requires Enabled(s, Deliver(n, c)) && MatchesSent(s, Deliver(n, c))
    ensures UnderWay(Next(s, Deliver(n, c)), n)
  {
    var s', p := Next(s, Deliver(n, c)), Port(n, c);
    assert s'.wire[p][|s'.wire[p]| - 1] == PairResult(true);
  }

  lemma UnderWayStays(s: System, st: Step, n: Node)
    requires Enabled(s, st) && UnderWay(s, n)
    ensures UnderWay(Next(s, st), n) || (st.Deliver? && st.n == Other(n) && Head(s, st.n, st.c) == Some(PairResult(true)))
  {
    var p :| p in s.wire && p.node == n && PairResult(true) in s.wire[p];
    WireKeeps(s, st, p);
    var q := s.wire[p];
    if st.Deliver? && p == Port(Other(st.n), st.c) {
      if q[0] != PairResult(true) {
        var k :| 0 <= k < |q| && q[k] == PairResult(true);
        assert q[1..][k - 1] == PairResult(true);
      }
    }
  }

  /** What a step appends to the messages a port has sent. */
  function Sent(s: System, st: Step, p: Port): seq<Msg>
    requires Enabled(s, st)
  {
    if st.Flush? && p == Port(st.n, st.c) then [Queue(s.outbox, p)[0]]
    else if st.Deliver? && p == Port(st.n, st.c) then
      var r := Reply(Get(s, st.n), Head(s, st.n, st.c).value);
      if r.Some? then [r.value] else []
    else []
  }

  /** What a step leaves of one connection's messages under way in one direction. */
  lemma WireKeeps(s: System, st: Step, p: Port)
    requires Enabled(s, st)
    ensures var q, q' := Queue(s.wire, p), Queue(Next(s, st).wire, p);
            q' == if st.Deliver? && p == Port(Other(st.n), st.c) then q[1..] else q + Sent(s, st, p)
    ensures p in s.wire ==> p in Next(s, st).wire
    ensures p in Next(s, st).wire && p !in s.wire ==> (st.Flush? || st.Deliver?) && p == Port(st.n, st.c)
  {
    if st.Deliver? {
      DeliverKeeps(s, st.n, st.c, p);
    } else if st.Flush? {
      FlushKeeps(s, st.n, st.c, p);
    } else {
      WireStays(s, st);
      assert Queue(s.wire, p) + [] == Queue(s.wire, p);
    }
  }

  lemma WireStays(s: System, st: Step)
    requires Enabled(s, st) && !st.Deliver? && !st.Flush?
    ensures Next(s, st).wire == s.wire
  {
    hide WorkedLocal, AfterGate, AfterLoop, AfterGrant, Busy, Push;
  }

  lemma FlushKeeps(s: System, n: Node, c: Conn, p: Port)
    requires Enabled(s, Flush(n, c))
    ensures var s' := Next(s, Flush(n, c));
            && Queue(s'.wire, p) == Queue(s.wire, p) + Sent(s, Flush(n, c), p)
            && (p in s'.wire <==> p in s.wire || p == Port(n, c))
  {
    hide Busy;
  }

  lemma DeliverKeeps(s: System, n: Node, c: Conn, p: Port)
    requires Enabled(s, Deliver(n, c))
    ensures var q, s', st := Queue(s.wire, p), Next(s, Deliver(n, c)), Deliver(n, c);
            && Queue(s'.wire, p) == (if p == Port(Other(n), c) then q[1..] else q + Sent(s, st, p))
            && (p in s.wire ==> p in s'.wire) && (p in s'.wire ==> p in s.wire || p == Port(n, c))
  {
    hide Busy, Reply, Handled;
    var p0, popped := Port(Other(n), c), s.wire[Port(Other(n), c) := s.wire[Port(Other(n), c)][1..]];
    HandledWire(s.(wire := popped), n, c, s.wire[p0][0]);
  }

  lemma HandledWire(s: System, n: Node, c: Conn, m: Msg)
    ensures var r := Reply(Get(s, n), m);
            Handled(s, n, c, m).wire == if r.Some? then Push(s.wire, Port(n, c), r.value) else s.wire
  {
    hide Reply, HandledLocal, EndsLoop;
  }

  lemma StepKnown(s: System, st: Step, n: Node)
    requires Paid(s) && Known(s, n) && Enabled(s, st) && !st.RemoveTrust? && !MatchesStored(s, st)
    ensures Known(Next(s, st), n)
  {
    hide Next, Enabled, UnderWay, MatchesSent, MatchesStored, Head;
    var s' := Next(s, st);
    SettledStays(s, st, Other(n));
    if Settled(s', n) {
      if !Settled(s, n) {
        NewlySettled(s, st, n);
        if MatchesSent(s, st) {
          MatchAnswers(s, n, st.c);
        } else {
          ToldIsSettled(s, n, st.c);
        }
      } else if !Settled(s, Other(n)) {
        UnderWayStays(s, st, n);
        if !UnderWay(s', n) {
          ToldIsSettled(s, Other(n), st.c);
        }
      }
    }
  }

  ghost predicate NoStoredMatch(ss: seq<System>, steps: seq<Step>) {
    |steps| <= |ss| && forall i | 0 <= i < |steps| :: !MatchesStored(ss[i], steps[i])
  }

  lemma {:induction false} RunsAreKnown(ss: seq<System>, steps: seq<Step>, n: Node, k: nat)
    requires Run(ss, steps) && Keeping(steps) && NoStoredMatch(ss, steps) && k <= |steps|
    requires !Get(ss[0], n).end.trusted
    ensures Known(ss[k], n)
  {
    hide Next, Enabled, MatchesStored;
    if k > 0 {
      RunsAreKnown(ss, steps, n, k - 1);
      RunsArePaid(ss, steps, k - 1);
      StepKnown(ss[k - 1], steps[k - 1], n);
    }
  }

  /**
   Pairing ends two-way: in a run without removal in which no stored code was found right, a node that
   has gained trust faces one that trusts it, unless an answer of success of its own was never delivered
   or the other is in the middle of its completion.
   */
  lemma GainedTrustIsTwoWay(ss: seq<System>, steps: seq<Step>, n: Node)
    requires Run(ss, steps) && Keeping(steps) && NoStoredMatch(ss, steps)
    requires !Get(ss[0], n).end.trusted && Get(ss[|steps|], n).end.trusted
    requires !UnderWay(ss[|steps|], n) && !HasCompletion(Get(ss[|steps|], Other(n)).tasks)
    ensures Get(ss[|steps|], Other(n)).end.trusted
  {
    RunsAreKnown(ss, steps, n, |steps|);
  }

  /** The pending write needs no session: when it runs, trust is there. */
  lemma WriteNeedsNoSession(s: System, n: Node, i: nat)
    requires Enabled(s, Work(n, i)) && Writes(s, Work(n, i), n)
    ensures Get(Next(s, Work(n, i)), n).end == Written(Get(s, n).end)
  {
  }
}
