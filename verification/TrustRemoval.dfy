/**
 What a removal of trust leaves behind: when a node can come to trust again without any consent given after
 the removal, and when it cannot.
 */
module TrustRemoval {
  import opened Prelude
  import opened PairingMachines
  import opened Pairing
  import opened PairingOutcomes

  // ----- What may be left -----

  /** Steps that are consent, or put it to use: a grant, a code typed in, a code found right. */
  predicate Consents(s: System, st: Step) {
    st.Grant? || st.Submit? || MatchesStored(s, st) || MatchesSent(s, st)
  }

  /** Messages that end the loop which meets them. */
  predicate Closes(m: Msg) {
    m.ConsentDeny? || m.ConsentCancel? || m.Goodbye? || m.TrustBroken?
  }

  /** Under way to `n`, on a connection it has not ended, an answer of success with nothing before it that would end it. */
  predicate Arriving(s: System, n: Node, c: Conn, k: nat) {
    var q := Queue(s.wire, Port(Other(n), c));
    && Port(n, c) in s.phase && s.phase[Port(n, c)] != Ended
    && k < |q| && q[k] == PairResult(true)
    && forall j | 0 <= j < k :: !Closes(q[j])
  }

  ghost predicate ResultLeft(s: System, n: Node) {
    exists c, k :: Arriving(s, n, c, k)
  }

  /** A completion of `n` under way, or a success still to be told to it. */
  ghost predicate Leftover(s: System, n: Node) {
    HasCompletion(Get(s, n).tasks) || ResultLeft(s, n)
  }

  /** Connections have two ends, messages travel on connections, results are never queued behind a loop. */
  ghost predicate Placed(s: System) {
    && (forall n, c :: Port(n, c) in s.phase <==> Port(Other(n), c) in s.phase)
    && (forall p | p in s.wire :: p in s.phase)
    && Plain(s.outbox)
  }

  lemma PortsStay(s: System, st: Step)
    requires Enabled(s, st)
    ensures var s' := Next(s, st);
            s'.phase.Keys == s.phase.Keys + if st.Dial? then {Port(st.n, st.c), Port(Other(st.n), st.c)} else {}
    ensures forall p | p in s.phase && s.phase[p].Ended? :: Next(s, st).phase[p].Ended?
  {
    hide Reply, HandledLocal, EndsLoop, WorkedLocal, AfterGate, AfterLoop, AfterGrant, Busy, Push;
  }

  ghost predicate Plain(q: map<Port, seq<Msg>>) {
    forall p, m | p in q && m in q[p] :: !m.PairResult?
  }

  lemma SendPlain(s: System, n: Node, m: Msg)
    requires Plain(s.outbox) && !m.PairResult? && Get(s, n).end.session.Some?
    ensures Plain(SendCtrl(s, n, m).outbox) && Get(SendCtrl(s, n, m), n) == Get(s, n)
  {
    PushAdds(s.outbox, Port(n, Get(s, n).end.session.value.conn), m);
  }

  lemma OutboxStays(s: System, st: Step)
    requires Enabled(s, st) && Plain(s.outbox)
    ensures Plain(Next(s, st).outbox)
  {
    hide SendCtrl, Plain, Handled, WorkedLocal, AfterGate, AfterLoop, Busy;
    match st
    case Submit(n, code) => SendPlain(Put(s, n, Get(s, n).(submitted := Get(s, n).submitted + {code})), n, PairCodeSubmit(code));
    case Grant(n, code) =>
      var l := Get(s, n);
      var l' := l.(end := AfterGrant(l.end, code), granted := l.granted + {code}, tasks := l.tasks + [Release]);
      SendPlain(Put(s, n, l'), n, ConsentGrant);
    case Deny(n) => SendPlain(s, n, ConsentDeny);
    case Cancel(n) => SendPlain(s, n, ConsentCancel);
    case Disconnect(n) => SendPlain(s, n, Goodbye);
    case RemoveTrust(n) =>
      if Get(s, n).end.session.Some? {
        SendPlain(s, n, TrustBroken);
        SendPlain(SendCtrl(s, n, TrustBroken), n, Goodbye);
      }
    case Flush(n, c) => FlushPlain(s, n, c);
    case Deliver(n, c) => HandledOutbox(s.(wire := s.wire[Port(Other(n), c) := s.wire[Port(Other(n), c)][1..]]), n, c);
    case _ =>
  }

  lemma FlushPlain(s: System, n: Node, c: Conn)
    requires Enabled(s, Flush(n, c)) && Plain(s.outbox)
    ensures Plain(Next(s, Flush(n, c)).outbox)
  {
    hide Busy;
    PopTakes(s.outbox, Port(n, c));
  }

  lemma HandledOutbox(s: System, n: Node, c: Conn)
    ensures forall m :: Handled(s, n, c, m).outbox == s.outbox
  {
    hide HandledLocal, Reply, EndsLoop, Push;
  }

  lemma StepPlaced(s: System, st: Step)
    requires Placed(s) && Enabled(s, st)
    ensures Placed(Next(s, st))
  {
    hide Next;
    var s' := Next(s, st);
    PortsStay(s, st);
    OutboxStays(s, st);
    forall p | p in s'.wire ensures p in s'.phase {
      WireKeeps(s, st, p);
    }
  }

  lemma {:induction false} RunsArePlaced(ss: seq<System>, steps: seq<Step>, k: nat)
    requires Run(ss, steps) && k <= |steps|
    ensures Placed(ss[k])
  {
    if k > 0 {
      hide Next, Enabled;
      RunsArePlaced(ss, steps, k - 1);
      StepPlaced(ss[k - 1], steps[k - 1]);
    }
  }

  // ----- Nothing left, no trust -----

  /** A success that is arriving was arriving before, unless a code has just been found right. */
  lemma ArrivingWas(s: System, st: Step, n: Node, c: Conn, k: nat)
    requires Placed(s) && Enabled(s, st) && !Consents(s, st) && Arriving(Next(s, st), n, c, k)
    ensures ResultLeft(s, n)
  {
    hide Next, Busy;
    var s', p := Next(s, st), Port(Other(n), c);
    var q, q' := Queue(s.wire, p), Queue(s'.wire, p);
    WireKeeps(s, st, p);
    PortsStay(s, st);
    assert Port(n, c) in s.phase && !s.phase[Port(n, c)].Ended?;
    if st.Deliver? && p == Port(Other(st.n), st.c) {
      HeadStaysOpen(s, st);
      assert forall j | 0 <= j < k :: q[j + 1] == q'[j];
      assert forall j | 0 < j <= k :: q[j] == q'[j - 1];
      assert Arriving(s, n, c, k + 1);
    } else if k < |q| {
      assert forall j | 0 <= j <= k :: q[j] == q'[j];
      assert Arriving(s, n, c, k);
    } else {
      assert q' == q + [PairResult(true)];
      NoNewSuccess(s, st);
    }
  }

  /** A loop that goes on has not met a closing message. */
  lemma HeadStaysOpen(s: System, st: Step)
    requires Enabled(s, st) && st.Deliver? && Next(s, st).phase[Port(st.n, st.c)] != Ended
    ensures !Closes(Head(s, st.n, st.c).value)
  {
  }

  lemma NoNewSuccess(s: System, st: Step)
    requires Placed(s) && Enabled(s, st) && !Consents(s, st)
    ensures st.Flush? ==> Queue(s.outbox, Port(st.n, st.c))[0] != PairResult(true)
    ensures st.Deliver? ==> Reply(Get(s, st.n), Head(s, st.n, st.c).value) != Some(PairResult(true))
  {
    if st.Flush? {
      var q := s.outbox[Port(st.n, st.c)];
      assert q[0] in q;
    }
  }

  lemma NothingLeftStays(s: System, st: Step, n: Node)
    requires Placed(s) && Enabled(s, st) && !Consents(s, st) && !Leftover(s, n)
    ensures !Leftover(Next(s, st), n)
    ensures Get(Next(s, st), n).end.trusted ==> Get(s, n).end.trusted
  {
    hide Next, MatchesStored, MatchesSent;
    var s' := Next(s, st);
    if c, k :| Arriving(s', n, c, k) {
      ArrivingWas(s, st, n, c, k);
    }
    StepRecords(s, st, n);
    NoNewCompletion(s, st, n);
  }

  lemma NoNewCompletion(s: System, st: Step, n: Node)
    requires Enabled(s, st) && !Consents(s, st) && !Leftover(s, n)
    ensures !HasCompletion(Get(Next(s, st), n).tasks) && !Writes(s, st, n)
  {
    hide ResultLeft, Arriving;
    var l := Get(s, n);
    if st.Work? {
      if st.n == n {
        assert l.tasks[st.i] in l.tasks;
        WorkSettles(l, st.i);
      }
    } else if !st.Deliver? {
      TasksStay(s, st, n);
    } else if st.n == n {
      if Head(s, n, st.c) == Some(PairResult(true)) {
        HeadArrives(s, n, st.c);
      } else {
        HandledSettles(l, st.c, Head(s, n, st.c).value);
      }
    }
  }

  lemma HeadArrives(s: System, n: Node, c: Conn)
    requires In(s, n, c, Live) && Head(s, n, c) == Some(PairResult(true))
    ensures ResultLeft(s, n)
  {
    assert Arriving(s, n, c, 0);
  }

  lemma NothingLeftHere(ss: seq<System>, steps: seq<Step>, k: nat, n: Node)
    requires Run(ss, steps) && k < |steps| && !Consents(ss[k], steps[k])
    requires !Get(ss[k], n).end.trusted && !Leftover(ss[k], n)
    ensures !Get(ss[k + 1], n).end.trusted && !Leftover(ss[k + 1], n)
  {
    hide Next, Enabled, Consents, Leftover, Placed;
    RunsArePlaced(ss, steps, k);
    NothingLeftStays(ss[k], steps[k], n);
  }

  /** Without anything left, and without fresh consent, a node that does not trust goes on not to. */
  lemma {:induction false} NothingLeftNoTrust(ss: seq<System>, steps: seq<Step>, i: nat, k: nat, n: Node)
    requires Run(ss, steps) && i <= k <= |steps| && !Get(ss[i], n).end.trusted && !Leftover(ss[i], n)
    requires forall j | i <= j < k :: !Consents(ss[j], steps[j])
    ensures !Get(ss[k], n).end.trusted && !Leftover(ss[k], n)
  {
    hide Next, Enabled, Consents, Leftover, Start, Get;
    if i < k {
      NothingLeftNoTrust(ss, steps, i, k - 1, n);
      NothingLeftHere(ss, steps, k - 1, n);
    }
  }

  // ----- Something left, trust without fresh consent -----

  /** A longer run, without fresh consent in what it adds. */
  ghost predicate Later(ss: seq<System>, steps: seq<Step>, ss': seq<System>, steps': seq<Step>) {
    && Run(ss', steps') && |ss| == |steps| + 1 && |ss'| == |steps'| + 1
    && ss <= ss' && steps <= steps'
    && forall j | |steps| <= j < |steps'| :: !Consents(ss'[j], steps'[j])
  }

  lemma LaterStep(ss: seq<System>, steps: seq<Step>, st: Step) returns (ss': seq<System>, steps': seq<Step>)
    requires Run(ss, steps) && Enabled(ss[|steps|], st) && !Consents(ss[|steps|], st)
    ensures Later(ss, steps, ss', steps') && |steps'| == |steps| + 1 && ss'[|steps'|] == Next(ss[|steps|], st)
  {
    hide Next, Enabled, Consents;
    ss', steps' := Extend(ss, steps, st);
  }

  lemma LaterJoins(ss: seq<System>, steps: seq<Step>, ss1: seq<System>, steps1: seq<Step>, ss2: seq<System>, steps2: seq<Step>)
    requires Later(ss, steps, ss1, steps1) && Later(ss1, steps1, ss2, steps2)
    ensures Later(ss, steps, ss2, steps2)
  {
    hide Run, Consents;
    forall j | |steps| <= j < |steps2| ensures !Consents(ss2[j], steps2[j]) {
      if j < |steps1| {
        assert ss2[j] == ss1[j] && steps2[j] == steps1[j];
      }
    }
  }

  /** Steps a completion still takes. */
  function Regions(t: Task): nat {
    if t.Finish? then 3 else if t.Clear? then 2 else 1
  }

  lemma {:induction false} CompletionTrusts(ss: seq<System>, steps: seq<Step>, n: Node, i: nat)
    returns (ss': seq<System>, steps': seq<Step>)
    requires Run(ss, steps) && !Get(ss[|steps|], n).end.trusted
    requires i < |Get(ss[|steps|], n).tasks| && Completes(Get(ss[|steps|], n).tasks[i])
    ensures Later(ss, steps, ss', steps') && Get(ss'[|steps'|], n).end.trusted
    decreases Regions(Get(ss[|steps|], n).tasks[i])
  {
    hide Later;
    var s, st := ss[|steps|], Work(n, i);
    ss', steps' := LaterStep(ss, steps, st);
    LaterRuns(ss, steps, ss', steps');
    CompletionGoesOn(s, n, i);
    if !Get(s, n).tasks[i].Write? {
      var ss2, steps2 := CompletionTrusts(ss', steps', n, |Get(s, n).tasks| - 1);
      LaterJoins(ss, steps, ss', steps', ss2, steps2);
      ss', steps' := ss2, steps2;
    }
  }

  lemma LaterRuns(ss: seq<System>, steps: seq<Step>, ss': seq<System>, steps': seq<Step>)
    requires Later(ss, steps, ss', steps')
    ensures Run(ss', steps')
  {
  }

  lemma CompletionGoesOn(s: System, n: Node, i: nat)
    requires Enabled(s, Work(n, i)) && Completes(Get(s, n).tasks[i]) && !Get(s, n).end.trusted
    ensures var t, l' := Get(s, n).tasks[i], Get(Next(s, Work(n, i)), n);
            if t.Write? then l'.end.trusted
            else
              && !l'.end.trusted && |l'.tasks| == |Get(s, n).tasks|
              && Completes(l'.tasks[|l'.tasks| - 1]) && Regions(l'.tasks[|l'.tasks| - 1]) < Regions(t)
  {
  }

  /** No code machine to find a code right with. */
  predicate Bare(e: Endpoint) {
    e.session.Some? ==> e.session.value.machine.None?
  }

  function PhaseRank(ph: Phase): nat {
    match ph
    case Incoming => 2
    case Dialing => 1
    case Sampled(_) => 1
    case _ => 0
  }

  /** What to do next to hear of the success: leave a session with a code machine, bring the loop up, take a message. */
  function Onward(s: System, n: Node, c: Conn): Step
    requires Port(n, c) in s.phase
  {
    if !Bare(Get(s, n).end) then Disconnect(n)
    else match s.phase[Port(n, c)]
      case Incoming => Sample(n, c)
      case Live => Deliver(n, c)
      case _ => Attach(n, c)
  }

  lemma NotBusy(l: Local, c: Conn)
    requires !HasCompletion(l.tasks)
    ensures !Busy(l, c)
  {
  }

  /** Without a code machine a message that closes nothing only passes by, or tells of success. */
  lemma BareHandles(l: Local, c: Conn, m: Msg)
    requires Bare(l.end) && !Closes(m)
    ensures Bare(HandledLocal(l, c, m).end) && !EndsLoop(l, m)
    ensures m.PairCodeSubmit? ==> !AfterSubmit(l.end, m.code).1.Matched?
    ensures HandledLocal(l, c, m).tasks == l.tasks + if m == PairResult(true) then [Finish(Some(c))] else []
  {
  }

  lemma DeliverHelps(s: System, n: Node, c: Conn, k: nat)
    requires Arriving(s, n, c, k) && !Get(s, n).end.trusted
    requires Enabled(s, Deliver(n, c)) && Bare(Get(s, n).end)
    ensures var s' := Next(s, Deliver(n, c));
            && !Consents(s, Deliver(n, c)) && !Get(s', n).end.trusted && Bare(Get(s', n).end)
            && (HasCompletion(Get(s', n).tasks) || (k > 0 && Arriving(s', n, c, k - 1)))
  {
    hide Busy, HandledLocal, AfterSubmit;
    var q, s', st := Queue(s.wire, Port(Other(n), c)), Next(s, Deliver(n, c)), Deliver(n, c);
    assert !Closes(q[0]);
    BareHandles(Get(s, n), c, q[0]);
    StepRecords(s, st, n);
    WireKeeps(s, st, Port(Other(n), c));
    if q[0] == PairResult(true) {
      var ts := Get(s', n).tasks;
      assert ts[|ts| - 1] == Finish(Some(c)) && ts[|ts| - 1] in ts && Completes(ts[|ts| - 1]);
    } else {
      assert forall j | 0 <= j < k :: q[1..][j] == q[j + 1];
    }
  }

  /** Each of the other next steps keeps the success arriving and brings its delivery nearer. */
  lemma OnwardHelps(s: System, n: Node, c: Conn, k: nat)
    requires Arriving(s, n, c, k) && !HasCompletion(Get(s, n).tasks) && !Get(s, n).end.trusted
    requires !Onward(s, n, c).Deliver?
    ensures var st := Onward(s, n, c);
            && Enabled(s, st) && !Consents(s, st)
            && var s' := Next(s, st);
            && !Get(s', n).end.trusted && Arriving(s', n, c, k) && Bare(Get(s', n).end)
            && (Bare(Get(s, n).end) ==> PhaseRank(s'.phase[Port(n, c)]) < PhaseRank(s.phase[Port(n, c)]))
  {
    hide Busy, Push;
  }

  /** An answer of success that is arriving can be heard. */
  lemma {:induction false} ResultTrusts(ss: seq<System>, steps: seq<Step>, n: Node, c: Conn, k: nat)
    returns (ss': seq<System>, steps': seq<Step>)
    requires Run(ss, steps) && !Get(ss[|steps|], n).end.trusted && Arriving(ss[|steps|], n, c, k)
    ensures Later(ss, steps, ss', steps') && Get(ss'[|steps'|], n).end.trusted
    decreases k, !Bare(Get(ss[|steps|], n).end), PhaseRank(ss[|steps|].phase[Port(n, c)])
  {
    hide Later, Arriving, Enabled, Next, Consents, Busy;
    var s := ss[|steps|];
    if HasCompletion(Get(s, n).tasks) {
      var i :| 0 <= i < |Get(s, n).tasks| && Completes(Get(s, n).tasks[i]);
      ss', steps' := CompletionTrusts(ss, steps, n, i);
      return;
    }
    ArrivesHere(s, n, c, k);
    var st := Onward(s, n, c);
    if st.Deliver? {
      DeliverHelps(s, n, c, k);
    } else {
      OnwardHelps(s, n, c, k);
    }
    ss', steps' := LaterStep(ss, steps, st);
    LaterRuns(ss, steps, ss', steps');
    var s', ss2, steps2 := ss'[|steps'|], ss', steps';
    if HasCompletion(Get(s', n).tasks) {
      var i :| 0 <= i < |Get(s', n).tasks| && Completes(Get(s', n).tasks[i]);
      ss2, steps2 := CompletionTrusts(ss', steps', n, i);
    } else if st.Deliver? {
      ss2, steps2 := ResultTrusts(ss', steps', n, c, k - 1);
    } else {
      ss2, steps2 := ResultTrusts(ss', steps', n, c, k);
    }
    LaterJoins(ss, steps, ss', steps', ss2, steps2);
    ss', steps' := ss2, steps2;
  }

  lemma ArrivesHere(s: System, n: Node, c: Conn, k: nat)
    requires Arriving(s, n, c, k) && !HasCompletion(Get(s, n).tasks)
    ensures Port(n, c) in s.phase && s.phase[Port(n, c)] != Ended
    ensures Onward(s, n, c).Deliver? ==> Enabled(s, Deliver(n, c)) && Bare(Get(s, n).end) && Onward(s, n, c) == Deliver(n, c)
  {
    NotBusy(Get(s, n), c);
  }

  /**
   When a re-gain needs fresh consent: a node that does not trust, its trust just removed or never had, can
   come to trust without any further grant, code or match if and only if a completion of its is under way
   or an answer of success can still reach it.
   */
  lemma RegainsIffLeftover(ss: seq<System>, steps: seq<Step>, n: Node)
    requires Run(ss, steps) && !Get(ss[|steps|], n).end.trusted
    ensures Leftover(ss[|steps|], n) <==>
            exists ss', steps' :: Later(ss, steps, ss', steps') && Get(ss'[|steps'|], n).end.trusted
  {
    var s := ss[|steps|];
    if HasCompletion(Get(s, n).tasks) {
      var i :| 0 <= i < |Get(s, n).tasks| && Completes(Get(s, n).tasks[i]);
      var ss', steps' := CompletionTrusts(ss, steps, n, i);
    } else if ResultLeft(s, n) {
      var c, k :| Arriving(s, n, c, k);
      var ss', steps' := ResultTrusts(ss, steps, n, c, k);
    } else {
      forall ss', steps' | Later(ss, steps, ss', steps') ensures !Get(ss'[|steps'|], n).end.trusted {
        assert ss'[|steps|] == s;
        NothingLeftNoTrust(ss', steps', |steps|, |steps'|, n);
      }
    }
  }

  // ----- Codes and machines from before -----

  predicate MachineFor(e: Endpoint, k: Code) {
    e.session.Some? && e.session.value.machine.Some? && e.session.value.machine.value.codeHash.code == k
  }

  predicate StoredAt(l: Local, k: Code) {
    || JudgeStored(k) in l.tasks
    || (l.end.session.Some? && !l.end.session.value.consent.Initiator? && l.end.session.value.consent.pending == Some(k))
  }

  ghost predicate SentBy(q: map<Port, seq<Msg>>, n: Node, k: Code) {
    exists p :: p in q && p.node == n && PairCodeSubmit(k) in q[p]
  }

  /** A code for `a` to judge is queued, under way or stored. */
  ghost predicate CodeAbout(s: System, a: Node, k: Code) {
    StoredAt(Get(s, a), k) || SentBy(s.outbox, Other(a), k) || SentBy(s.wire, Other(a), k)
  }

  /** Some code may still meet the machine it is right for. */
  ghost predicate Meets(s: System) {
    exists a, k :: MachineFor(Get(s, a).end, k) && CodeAbout(s, a, k)
  }

  lemma MatchMeets(s: System, st: Step)
    requires Enabled(s, st) && (MatchesStored(s, st) || MatchesSent(s, st))
    ensures Meets(s)
  {
    var l := Get(s, st.n);
    if MatchesStored(s, st) {
      var k := l.tasks[st.i].code;
      assert JudgeStored(k) in l.tasks && MachineFor(l.end, k) && CodeAbout(s, st.n, k);
    } else {
      var k, p := Head(s, st.n, st.c).value.code, Port(Other(st.n), st.c);
      assert PairCodeSubmit(k) in s.wire[p] && SentBy(s.wire, p.node, k);
      assert MachineFor(l.end, k) && CodeAbout(s, st.n, k);
    }
  }

  /** Where there is neither grant nor submission, a node's machine and what is stored at it were there before. */
  lemma LocalWas(l: Local, l': Local, k: Code, c: Conn, m: Msg, i: nat)
    requires l' == HandledLocal(l, c, m) || (i < |l.tasks| && l' == WorkedLocal(l, i))
    ensures MachineFor(l'.end, k) ==> MachineFor(l.end, k)
    ensures StoredAt(l', k) ==> StoredAt(l, k) || (l' == HandledLocal(l, c, m) && m == PairCodeSubmit(k))
  {
    if JudgeStored(k) in l'.tasks && i < |l.tasks| && l' == WorkedLocal(l, i) {
      var rest := l.tasks[..i] + l.tasks[i + 1..];
      assert JudgeStored(k) in rest ==> JudgeStored(k) in l.tasks;
      assert l.tasks[i] in l.tasks;
    }
  }

  lemma NodeWas(s: System, st: Step, a: Node, k: Code)
    requires Enabled(s, st) && !st.Grant? && !st.Submit?
    ensures MachineFor(Get(Next(s, st), a).end, k) ==> MachineFor(Get(s, a).end, k)
    ensures StoredAt(Get(Next(s, st), a), k) ==>
              StoredAt(Get(s, a), k) || (st.Deliver? && st.n == a && Head(s, a, st.c) == Some(PairCodeSubmit(k)))
  {
    if st.Deliver? {
      var m := Head(s, st.n, st.c).value;
      LocalWas(Get(s, st.n), HandledLocal(Get(s, st.n), st.c, m), k, st.c, m, 0);
    } else if st.Work? {
      LocalWas(Get(s, st.n), WorkedLocal(Get(s, st.n), st.i), k, 0, Goodbye, st.i);
    } else {
      QuietNodeWas(s, st, a, k);
    }
  }

  lemma QuietNodeWas(s: System, st: Step, a: Node, k: Code)
    requires Enabled(s, st) && !st.Grant? && !st.Submit? && !st.Deliver? && !st.Work?
    ensures MachineFor(Get(Next(s, st), a).end, k) ==> MachineFor(Get(s, a).end, k)
    ensures StoredAt(Get(Next(s, st), a), k) ==> StoredAt(Get(s, a), k)
  {
    TasksStay(s, st, a);
    assert Get(s, a).tasks + [] == Get(s, a).tasks;
    EndWas(s, st, a, k);
  }

  lemma EndWas(s: System, st: Step, a: Node, k: Code)
    requires Enabled(s, st) && !st.Grant? && !st.Submit? && !st.Deliver? && !st.Work?
    ensures var e, e' := Get(s, a).end, Get(Next(s, st), a).end;
            e'.session.Some? ==>
              || e'.session == e.session
              || (e'.session.value.machine.None? &&
                  (e'.session.value.consent.Initiator? || e'.session.value.consent.pending.None?))
  {
    hide Push, Queue, Busy;
  }

  lemma CodeWas(s: System, st: Step, n: Node, k: Code)
    requires Enabled(s, st) && !st.Submit?
    ensures SentBy(Next(s, st).outbox, n, k) ==> SentBy(s.outbox, n, k)
    ensures SentBy(Next(s, st).wire, n, k) ==> SentBy(s.wire, n, k) || SentBy(s.outbox, n, k)
  {
    hide Next, Enabled;
    var s' := Next(s, st);
    if SentBy(s'.outbox, n, k) {
      OutboxWas(s, st);
    }
    if SentBy(s'.wire, n, k) {
      var p :| p in s'.wire && p.node == n && PairCodeSubmit(k) in s'.wire[p];
      WireWas(s, st, p, k);
    }
  }

  lemma WireWas(s: System, st: Step, p: Port, k: Code)
    requires Enabled(s, st) && p in Next(s, st).wire && PairCodeSubmit(k) in Next(s, st).wire[p]
    ensures SentBy(s.wire, p.node, k) || SentBy(s.outbox, p.node, k)
  {
    hide Next, Busy;
    var q, q' := Queue(s.wire, p), Queue(Next(s, st).wire, p);
    WireKeeps(s, st, p);
    if PairCodeSubmit(k) in q {
      assert p in s.wire;
    } else {
      assert PairCodeSubmit(k) in Sent(s, st, p);
      assert st.Flush? && Queue(s.outbox, p)[0] == PairCodeSubmit(k) && Queue(s.outbox, p)[0] in s.outbox[p];
    }
  }

  /** Without a submission the outboxes gain no code. */
  lemma OutboxWas(s: System, st: Step)
    requires Enabled(s, st) && !st.Submit?
    ensures forall p, k | p in Next(s, st).outbox && PairCodeSubmit(k) in Next(s, st).outbox[p] ::
              p in s.outbox && PairCodeSubmit(k) in s.outbox[p]
  {
    hide Handled, WorkedLocal, AfterGate, AfterLoop, Busy, SendCtrl;
    match st
    case Grant(n, code) =>
      var l := Get(s, n);
      var l' := l.(end := AfterGrant(l.end, code), granted := l.granted + {code}, tasks := l.tasks + [Release]);
      SendAddsNoCode(Put(s, n, l'), n, ConsentGrant);
    case Deny(n) => SendAddsNoCode(s, n, ConsentDeny);
    case Cancel(n) => SendAddsNoCode(s, n, ConsentCancel);
    case Disconnect(n) => SendAddsNoCode(s, n, Goodbye);
    case RemoveTrust(n) =>
      if Get(s, n).end.session.Some? {
        SendAddsNoCode(s, n, TrustBroken);
        SendAddsNoCode(SendCtrl(s, n, TrustBroken), n, Goodbye);
      }
    case Flush(n, c) => PopTakes(s.outbox, Port(n, c));
    case Deliver(n, c) => HandledOutbox(s.(wire := s.wire[Port(Other(n), c) := s.wire[Port(Other(n), c)][1..]]), n, c);
    case _ =>
  }

  lemma SendAddsNoCode(s: System, n: Node, m: Msg)
    requires Get(s, n).end.session.Some? && !m.PairCodeSubmit?
    ensures Get(SendCtrl(s, n, m), n) == Get(s, n)
    ensures forall p, k | p in SendCtrl(s, n, m).outbox && PairCodeSubmit(k) in SendCtrl(s, n, m).outbox[p] ::
              p in s.outbox && PairCodeSubmit(k) in s.outbox[p]
  {
    PushAdds(s.outbox, Port(n, Get(s, n).end.session.value.conn), m);
  }

  lemma MeetsWas(s: System, st: Step)
    requires Enabled(s, st) && !st.Grant? && !st.Submit? && Meets(Next(s, st))
    ensures Meets(s)
  {
    hide Next, MachineFor, StoredAt, SentBy, Busy;
    var a, k :| MachineFor(Get(Next(s, st), a).end, k) && CodeAbout(Next(s, st), a, k);
    NodeWas(s, st, a, k);
    CodeWas(s, st, Other(a), k);
    if st.Deliver? && st.n == a && Head(s, a, st.c) == Some(PairCodeSubmit(k)) {
      HeadIsSent(s, a, st.c, k);
    }
    assert CodeAbout(s, a, k);
  }

  lemma HeadIsSent(s: System, a: Node, c: Conn, k: Code)
    requires Head(s, a, c) == Some(PairCodeSubmit(k))
    ensures SentBy(s.wire, Other(a), k)
  {
    var p := Port(Other(a), c);
    assert s.wire[p][0] == PairCodeSubmit(k) && s.wire[p][0] in s.wire[p];
  }

  /**
   With nothing left over and no code about that is right for a machine, trust does not come back until
   some user grants or types in a code.
   */
  lemma {:induction false} NothingMeetsNoTrust(ss: seq<System>, steps: seq<Step>, i: nat, k: nat, n: Node)
    requires Run(ss, steps) && i <= k <= |steps| && !Get(ss[i], n).end.trusted && !Leftover(ss[i], n) && !Meets(ss[i])
    requires forall j | i <= j < k :: !steps[j].Grant? && !steps[j].Submit?
    ensures !Get(ss[k], n).end.trusted && !Leftover(ss[k], n) && !Meets(ss[k])
  {
    hide Next, Enabled, Leftover, Start, Get, Meets, MatchesStored, MatchesSent;
    if i < k {
      NothingMeetsNoTrust(ss, steps, i, k - 1, n);
      if MatchesStored(ss[k - 1], steps[k - 1]) || MatchesSent(ss[k - 1], steps[k - 1]) {
        MatchMeets(ss[k - 1], steps[k - 1]);
      }
      NothingLeftHere(ss, steps, k - 1, n);
      if Meets(ss[k]) {
        MeetsWas(ss[k - 1], steps[k - 1]);
      }
    }
  }

  // ----- After a clean break everything is given anew -----

  predicate Spent(m: Msg) {
    !m.PairCodeSubmit? && m != PairResult(true)
  }

  predicate CleanNode(l: Local) {
    && (forall t <- l.tasks :: t.Release?)
    && Bare(l.end)
    && (l.end.session.Some? && !l.end.session.value.consent.Initiator? ==> l.end.session.value.consent.pending.None?)
  }

  /** No code machine, no code stored or under way, no completion, no success under way. */
  ghost predicate Clean(s: System) {
    && CleanNode(s.alice) && CleanNode(s.bob)
    && (forall p, m | p in s.outbox && m in s.outbox[p] :: Spent(m))
    && (forall p, m | p in s.wire && m in s.wire[p] :: Spent(m))
  }

  function ForgetLocal(l: Local): Local {
    l.(granted := {}, submitted := {})
  }

  /** The same state with nothing on record. */
  function Forget(s: System): System {
    s.(alice := ForgetLocal(s.alice), bob := ForgetLocal(s.bob))
  }

  lemma CleanIsHonest(s: System)
    requires Clean(s)
    ensures Honest(Forget(s)) && Unrecorded(Forget(s))
  {
    hide Proven;
    var r := Forget(s);
    forall p, m | p in r.outbox && m in r.outbox[p] ensures Justified(r, p.node, m) {
      assert Spent(m);
    }
    forall p, m | p in r.wire && m in r.wire[p] ensures Justified(r, p.node, m) {
      assert Spent(m);
    }
  }

  /** Two states that differ only in their records. */
  predicate Twins(s: System, r: System) {
    Forget(s) == Forget(r)
  }

  /** Records have no influence on what happens. */
  lemma TwinsStep(s: System, r: System, st: Step)
    requires Twins(s, r) && Enabled(s, st)
    ensures Enabled(r, st) && Twins(Next(s, st), Next(r, st))
  {
    if st.Deliver? {
      TwinsDeliver(s, r, st.n, st.c);
    } else if st.Work? {
      TwinsWork(Get(s, st.n), Get(r, st.n), st.i);
    } else if st.Dial? || st.Sample? || st.Attach? || st.Flush? || st.Lose? {
      TwinsNet(s, r, st);
    } else {
      TwinsUser(s, r, st);
    }
  }

  lemma TwinsNet(s: System, r: System, st: Step)
    requires Twins(s, r) && Enabled(s, st) && (st.Dial? || st.Sample? || st.Attach? || st.Flush? || st.Lose?)
    ensures Enabled(r, st) && Twins(Next(s, st), Next(r, st))
  {
    hide Push, AfterLoop;
  }

  lemma TwinsSend(s: System, r: System, n: Node, m: Msg)
    requires Twins(s, r) && Get(s, n).end.session.Some?
    ensures Get(r, n).end == Get(s, n).end
    ensures Twins(SendCtrl(s, n, m), SendCtrl(r, n, m)) && Get(SendCtrl(s, n, m), n).end == Get(s, n).end
  {
    hide Push;
  }

  lemma TwinsPut(s: System, r: System, n: Node, l: Local, l': Local)
    requires Twins(s, r) && ForgetLocal(l) == ForgetLocal(l')
    ensures Twins(Put(s, n, l), Put(r, n, l'))
  {
  }

  lemma TwinsUser(s: System, r: System, st: Step)
    requires Twins(s, r) && Enabled(s, st)
    requires !st.Deliver? && !st.Work? && !st.Dial? && !st.Sample? && !st.Attach? && !st.Flush? && !st.Lose?
    ensures Enabled(r, st) && Twins(Next(s, st), Next(r, st))
  {
    hide Push, AfterGate, Busy, SendCtrl, Twins, Put;
    var n := st.n;
    var l, l' := Get(s, n), Get(r, n);
    TwinsLocal(s, r, n);
    match st
    case Submit(_, code) =>
      TwinsPut(s, r, n, l.(submitted := l.submitted + {code}), l'.(submitted := l'.submitted + {code}));
      var g, g' := l.(submitted := l.submitted + {code}), l'.(submitted := l'.submitted + {code});
      PutIsThere(s, n, g);
      TwinsSend(Put(s, n, g), Put(r, n, g'), n, PairCodeSubmit(code));
    case Grant(_, code) =>
      var g := l.(end := AfterGrant(l.end, code), granted := l.granted + {code}, tasks := l.tasks + [Release]);
      var g' := l'.(end := AfterGrant(l'.end, code), granted := l'.granted + {code}, tasks := l'.tasks + [Release]);
      TwinsPut(s, r, n, g, g');
      PutIsThere(s, n, g);
      TwinsSend(Put(s, n, g), Put(r, n, g'), n, ConsentGrant);
    case Deny(_) => TwinsSend(s, r, n, ConsentDeny);
    case Cancel(_) => TwinsSend(s, r, n, ConsentCancel);
    case GateTimeout(_, c) => TwinsPut(s, r, n, l.(end := AfterGate(l.end, c)), l'.(end := AfterGate(l'.end, c)));
    case _ => TwinsLeave(s, r, st);
  }

  lemma TwinsLeave(s: System, r: System, st: Step)
    requires Twins(s, r) && Enabled(s, st) && (st.Disconnect? || st.RemoveTrust?)
    ensures Enabled(r, st) && Twins(Next(s, st), Next(r, st))
  {
    hide SendCtrl;
    var n := st.n;
    if Get(s, n).end.session.Some? {
      TwinsSend(s, r, n, Goodbye);
      TwinsSend(s, r, n, TrustBroken);
      TwinsSend(SendCtrl(s, n, TrustBroken), SendCtrl(r, n, TrustBroken), n, Goodbye);
    }
  }

  lemma TwinsLocal(s: System, r: System, n: Node)
    requires Twins(s, r)
    ensures ForgetLocal(Get(s, n)) == ForgetLocal(Get(r, n))
  {
  }

  lemma PutIsThere(s: System, n: Node, l: Local)
    ensures Get(Put(s, n, l), n) == l
  {
  }

  lemma TwinsWork(l: Local, r: Local, i: nat)
    requires ForgetLocal(l) == ForgetLocal(r) && i < |l.tasks|
    ensures ForgetLocal(WorkedLocal(l, i)) == ForgetLocal(WorkedLocal(r, i))
  {
  }

  lemma TwinsHandle(l: Local, r: Local, c: Conn, m: Msg)
    requires ForgetLocal(l) == ForgetLocal(r)
    ensures ForgetLocal(HandledLocal(l, c, m)) == ForgetLocal(HandledLocal(r, c, m))
    ensures Reply(l, m) == Reply(r, m) && EndsLoop(l, m) == EndsLoop(r, m)
  {
  }

  lemma TwinsDeliver(s: System, r: System, n: Node, c: Conn)
    requires Twins(s, r) && Enabled(s, Deliver(n, c))
    ensures Enabled(r, Deliver(n, c)) && Twins(Next(s, Deliver(n, c)), Next(r, Deliver(n, c)))
  {
    hide HandledLocal, Reply, EndsLoop, Push;
    TwinsHandle(Get(s, n), Get(r, n), c, Queue(s.wire, Port(Other(n), c))[0]);
  }

  /** A path followed again from the same state with nothing on record. */
  lemma {:induction false} Replay(ss: seq<System>, steps: seq<Step>) returns (rs: seq<System>)
    requires Path(ss, steps)
    ensures Path(rs, steps) && rs[0] == Forget(ss[0]) && forall i | 0 <= i <= |steps| :: Twins(ss[i], rs[i])
    decreases |steps|
  {
    hide Enabled, Next, Forget;
    if steps == [] {
      rs := [Forget(ss[0])];
      assert Twins(ss[0], rs[0]) by { ForgottenTwin(ss[0]); }
    } else {
      var k := |steps| - 1;
      rs := Replay(ss[..|steps|], steps[..k]);
      TwinsStep(ss[k], rs[k], steps[k]);
      rs := rs + [Next(rs[k], steps[k])];
    }
  }

  lemma ForgottenTwin(s: System)
    ensures Twins(s, Forget(s))
  {
  }

  /**
   From a clean state on, trust is gained only after a grant and the submission of its code that both came
   later than that state.
   */
  lemma FreshConsentNeeded(ss: seq<System>, steps: seq<Step>, i: nat, n: Node) returns (j: nat, acceptor: Node, code: Code)
    requires Run(ss, steps) && i <= |steps| && Clean(ss[i])
    requires !Get(ss[i], n).end.trusted && Get(ss[|steps|], n).end.trusted
    ensures i <= j < |steps| && Writes(ss[j], steps[j], n)
    ensures Grant(acceptor, code) in steps[i..j] && Submit(Other(acceptor), code) in steps[i..j]
  {
    hide Enabled, Next, Clean, Writes;
    var rs := Replay(ss[i..], steps[i..]);
    CleanIsHonest(ss[i]);
    assert Twins(ss[i..][0], rs[0]) && Twins(ss[i..][|steps| - i], rs[|steps| - i]);
    var d := TrustIsGained(rs, 0, n);
    acceptor, code := GainIsProven(rs, steps[i..], d, n);
    j := i + d;
    assert Twins(ss[i..][d], rs[d]) && steps[i..][d] == steps[j];
    TwinsWrite(ss[j], rs[d], steps[j], n);
    assert steps[i..][..d] == steps[i..j];
  }

  lemma TwinsWrite(s: System, r: System, st: Step, n: Node)
    requires Twins(s, r)
    ensures Writes(s, st, n) == Writes(r, st, n)
  {
  }
}
