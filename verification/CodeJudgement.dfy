/**
 What becomes of each code that a node is sent or has stored: told by the fields of its entry, step by step
 and over runs, and beside the judgement of the cooldown model.
 */
module CodeJudgement {
  import opened Prelude
  import opened PairingMachines
  import opened Pairing
  import opened PairingOutcomes
  import Cooldowns

  // ----- One code -----

  /** The entry of `l`, open for judging: granted, with a code machine. */
  predicate Judges(l: Local, m: Machine) {
    l.end.session.Some? && l.end.session.value.consent.Granted? && l.end.session.value.machine == Some(m)
  }

  /** The entry with another count of wrong codes, everything else as it was. */
  function WithFails(l: Local, fails: nat): Local
    requires l.end.session.Some? && l.end.session.value.machine.Some?
  {
    var s := l.end.session.value;
    l.(end := l.end.(session := Some(s.(machine := Some(s.machine.value.(fails := fails))))))
  }

  /**
   A wrong code on the entry's own connection is answered `PairResult{ok:false}`. The first and second
   leave the session with one more on the count; the third ends the loop and leaves no session.
   */
  lemma WrongCodeSent(l: Local, m: Machine, code: Code)
    requires Judges(l, m) && code != m.codeHash.code && m.fails <= 2
    ensures var c := l.end.session.value.conn;
            var msg := PairCodeSubmit(code);
            var l' := HandledLocal(l, c, msg);
            && Reply(l, msg) == Some(PairResult(false))
            && (EndsLoop(l, msg) <==> m.fails == 2)
            && l' == if m.fails == 2 then l.(end := l.end.(session := None)) else WithFails(l, m.fails + 1)
  {
  }

  /** The right code, however many wrong ones came before and on whatever connection: success, and a completion begins. */
  lemma RightCodeSent(l: Local, m: Machine, c: Conn)
    requires Judges(l, m)
    ensures var msg := PairCodeSubmit(m.codeHash.code);
            var l' := HandledLocal(l, c, msg);
            && Reply(l, msg) == Some(PairResult(true)) && !EndsLoop(l, msg)
            && l'.tasks == l.tasks + [Finish(Some(c))]
            && l'.end.session == Some(l.end.session.value.(machine := Some(m.(submittedOk := true))))
            && l'.end.trusted == l.end.trusted && l'.end.okReports == l.end.okReports
  {
  }

  /** A code that comes while the gate is closed is stored, the last one counting, and not answered. */
  lemma EarlyCodeIsStored(l: Local, c: Conn, code: Code)
    requires l.end.session.Some? && l.end.session.value.consent.Awaiting?
    ensures var msg := PairCodeSubmit(code);
            && Reply(l, msg) == None && !EndsLoop(l, msg)
            && HandledLocal(l, c, msg) ==
               l.(end := l.end.(session := Some(l.end.session.value.(consent := Awaiting(Some(code))))))
  {
  }

  /** Without a session, without a machine, or at the side that dialled, a code is passed over. */
  lemma IdleCodeIsPassedOver(l: Local, c: Conn, code: Code)
    requires l.end.session.Some? ==>
               l.end.session.value.consent.Initiator? ||
               (l.end.session.value.consent.Granted? && l.end.session.value.machine.None?)
    ensures var msg := PairCodeSubmit(code);
            HandledLocal(l, c, msg) == l && Reply(l, msg) == None && !EndsLoop(l, msg)
  {
  }

  /** The same judgement of a stored code, but that nothing is answered, and the third wrong one cuts whatever entry there is. */
  lemma StoredCodeJudged(l: Local, i: nat, m: Machine)
    requires i < |l.tasks| && l.tasks[i].JudgeStored? && l.end.session.Some? && l.end.session.value.machine == Some(m)
    ensures var rest := l.tasks[..i] + l.tasks[i + 1..];
            var right := l.tasks[i].code == m.codeHash.code;
            var l' := WorkedLocal(l, i);
            && l'.tasks == (if right then rest + [Finish(None)] else rest)
            && l'.end.trusted == l.end.trusted && l'.end.okReports == l.end.okReports
            && (right ==> l'.end.session == Some(l.end.session.value.(machine := Some(m.(submittedOk := true)))))
            && (!right && m.fails < 2 ==> l'.end == WithFails(l, m.fails + 1).end)
            && (!right && m.fails == 2 ==> l'.end.session == None)
  {
  }

  /**
   A third wrong code that comes on another connection than the entry's ends that connection's loop only:
   the entry stays, and the right code still pairs.
   */
  lemma ThirdOnOtherConnection(l: Local, m: Machine, c: Conn, code: Code)
    requires Judges(l, m) && code != m.codeHash.code && m.fails == 2 && l.end.session.value.conn != c
    ensures var msg, l' := PairCodeSubmit(code), HandledLocal(l, c, PairCodeSubmit(code));
            && EndsLoop(l, msg) && Judges(l', m.(fails := 3))
            && Reply(l', PairCodeSubmit(m.codeHash.code)) == Some(PairResult(true))
  {
  }

  // ----- The other regions, told by the entry's fields -----

  /** The gate cuts an entry exactly if it is still waiting and of this connection; nothing else ever changes. */
  lemma GateCutsIff(e: Endpoint, c: Conn)
    ensures var e' := AfterGate(e, c);
            && (e'.session.None? <==> e.session.None? || (e.session.value.consent.Awaiting? && e.session.value.conn == c))
            && (e'.session.Some? ==> e' == e)
            && e'.trusted == e.trusted && e'.okReports == e.okReports
  {
  }

  /** A loop that ends takes exactly its own connection's entry. */
  lemma LoopTakesIff(e: Endpoint, c: Conn)
    ensures var e' := AfterLoop(e, c);
            && (e'.session.Some? <==> e.session.Some? && e.session.value.conn != c)
            && (e'.session.Some? ==> e' == e)
            && e'.trusted == e.trusted && e'.okReports == e.okReports
  {
  }

  /** A grant opens a waiting entry for the new code, with no wrong code counted and the stored one kept. */
  lemma GrantOpens(e: Endpoint, code: Code)
    requires CanGrant(e)
    ensures var s, s' := e.session.value, AfterGrant(e, code).session.value;
            && s'.conn == s.conn && s'.consent == Granted(s.consent.pending)
            && s'.machine == Some(Machine(Sha256(code), false, 0))
            && AfterGrant(e, code).trusted == e.trusted && AfterGrant(e, code).okReports == e.okReports
  {
  }

  /** The rest of a grant takes the stored code out of the entry and judges it next. */
  lemma StoredCodeIsTaken(l: Local, i: nat)
    requires i < |l.tasks| && l.tasks[i].Release?
    ensures var rest, l' := l.tasks[..i] + l.tasks[i + 1..], WorkedLocal(l, i);
            if l.end.session.Some? && l.end.session.value.consent.Granted? && l.end.session.value.consent.pending.Some? then
              && l'.tasks == rest + [JudgeStored(l.end.session.value.consent.pending.value)]
              && l'.end == l.end.(session := Some(l.end.session.value.(consent := Granted(None))))
            else l'.tasks == rest && l'.end == l.end
  {
  }

  /** A completion ends with trust, one report more, and no code machine left in the entry. */
  lemma CompletionLeaves(l: Local, loop: Option<Conn>)
    requires l.tasks == [Finish(loop)] && !l.end.trusted
    ensures var l' := WorkedLocal(WorkedLocal(WorkedLocal(l, 0), 0), 0);
            && l'.tasks == [] && l'.end.trusted && l'.end.okReports == l.end.okReports + 1
            && (l'.end.session.Some? <==> l.end.session.Some?)
            && (l.end.session.Some? ==>
                  && l'.end.session.value.machine == None
                  && l'.end.session.value.conn == l.end.session.value.conn
                  && l'.end.session.value.consent == l.end.session.value.consent)
  {
    var l1 := WorkedLocal(l, 0);
    assert l1.tasks == [Clear(loop)];
    var l2 := WorkedLocal(l1, 0);
    assert l2.tasks == [Write(loop)];
  }

  /** A denial, a cancellation, a goodbye or broken trust ends the loop and takes its own entry; the last ends trust too. */
  lemma ClosingMessage(l: Local, c: Conn, m: Msg)
    requires m in {ConsentDeny, ConsentCancel, Goodbye, TrustBroken}
    ensures var l' := HandledLocal(l, c, m);
            && EndsLoop(l, m) && Reply(l, m) == None
            && (l'.end.session.Some? <==> l.end.session.Some? && l.end.session.value.conn != c)
            && (l'.end.session.Some? ==> l'.end.session == l.end.session)
            && (l'.end.trusted <==> l.end.trusted && m != TrustBroken)
            && l'.tasks == l.tasks && l'.end.okReports == l.end.okReports
  {
  }

  /** Being told of success begins a completion; of a wrong code, or of a grant, changes nothing; no loop ends. */
  lemma OpenMessage(l: Local, c: Conn, m: Msg)
    requires m in {PairResult(true), PairResult(false), ConsentGrant}
    ensures var l' := HandledLocal(l, c, m);
            && !EndsLoop(l, m) && Reply(l, m) == None && l'.end == l.end
            && l'.tasks == if m == PairResult(true) then l.tasks + [Finish(Some(c))] else l.tasks
  {
  }

  /**
   What each step of a user puts in the queue of the session's loop, in this order behind what is there; a
   disconnection takes the entry at once, and so does the removal of trust.
   */
  lemma UserSteps(s: System, st: Step)
    requires Enabled(s, st) && Get(s, st.n).end.session.Some?
    requires st.Submit? || st.Grant? || st.Deny? || st.Cancel? || st.Disconnect? || st.RemoveTrust?
    ensures var e, s' := Get(s, st.n).end, Next(s, st);
            var p := Port(st.n, e.session.value.conn);
            && s'.wire == s.wire && s'.phase == s.phase
            && Queue(s'.outbox, p) == Queue(s.outbox, p) + (match st
                                                            case Submit(_, code) => [PairCodeSubmit(code)]
                                                            case Grant(_, _) => [ConsentGrant]
                                                            case Deny(_) => [ConsentDeny]
                                                            case Cancel(_) => [ConsentCancel]
                                                            case Disconnect(_) => [Goodbye]
                                                            case _ => [TrustBroken, Goodbye])
            && (Get(s', st.n).end.session.None? <==> st.Disconnect? || st.RemoveTrust?)
            && (Get(s', st.n).end.trusted <==> e.trusted && !st.RemoveTrust?)
  {
    hide Queue, Push;
    var p, q := Port(st.n, Get(s, st.n).end.session.value.conn), s.outbox;
    match st {
      case Submit(_, code) => PushedBehind(q, p, PairCodeSubmit(code));
      case Grant(_, _) => PushedBehind(q, p, ConsentGrant);
      case Deny(_) => PushedBehind(q, p, ConsentDeny);
      case Cancel(_) => PushedBehind(q, p, ConsentCancel);
      case Disconnect(_) => PushedBehind(q, p, Goodbye);
      case RemoveTrust(_) =>
        PushedBehind(q, p, TrustBroken);
        PushedBehind(Push(q, p, TrustBroken), p, Goodbye);
        assert Queue(q, p) + [TrustBroken] + [Goodbye] == Queue(q, p) + [TrustBroken, Goodbye];
    }
  }

  lemma PushedBehind(q: map<Port, seq<Msg>>, p: Port, m: Msg)
    ensures Queue(Push(q, p, m), p) == Queue(q, p) + [m]
  {
  }

  /** A loop moves messages out in order: the oldest queued one goes behind all that is on the wire. */
  lemma FlushMoves(s: System, n: Node, c: Conn)
    requires Enabled(s, Flush(n, c))
    ensures var p, s' := Port(n, c), Next(s, Flush(n, c));
            && [Queue(s.outbox, p)[0]] + Queue(s'.outbox, p) == Queue(s.outbox, p)
            && Queue(s'.wire, p) == Queue(s.wire, p) + [Queue(s.outbox, p)[0]]
            && s'.alice == s.alice && s'.bob == s.bob && s'.phase == s.phase
  {
  }

  /** And meets the messages of the other side in that order, one at a time; an answer goes behind all on its wire. */
  lemma DeliverTakes(s: System, n: Node, c: Conn)
    requires Enabled(s, Deliver(n, c))
    ensures var from, to, s' := Port(Other(n), c), Port(n, c), Next(s, Deliver(n, c));
            var m := Queue(s.wire, from)[0];
            && Queue(s.wire, from) == [m] + Queue(s'.wire, from)
            && Get(s', n) == HandledLocal(Get(s, n), c, m) && Get(s', Other(n)) == Get(s, Other(n))
            && Queue(s'.wire, to) ==
                 Queue(s.wire, to) + (if Reply(Get(s, n), m).Some? then [Reply(Get(s, n), m).value] else [])
            && (s'.phase[to].Ended? <==> EndsLoop(Get(s, n), m))
            && s'.outbox == s.outbox
  {
    hide HandledLocal, Reply, EndsLoop;
  }

  /** Who has to ask: the accepting side's entry waits for consent exactly if it did not trust when it looked. */
  lemma EntryWaitsIff(s: System, n: Node, c: Conn)
    requires Enabled(s, Attach(n, c))
    ensures var e' := Get(Next(s, Attach(n, c)), n).end;
            && e'.session.Some? && e'.session.value.conn == c && e'.session.value.machine == None
            && (e'.session.value.consent == Awaiting(None) <==> s.phase[Port(n, c)] == Sampled(false))
            && (e'.session.value.consent.Initiator? <==> s.phase[Port(n, c)] != Sampled(false))
  {
  }

  // ----- Three at most, over runs on one connection -----

  /** A step in which `n` judges a code that is wrong. */
  predicate JudgesWrong(s: System, st: Step, n: Node) {
    && st.n == n
    && Get(s, n).end.session.Some? && Get(s, n).end.session.value.machine.Some?
    && var right := Get(s, n).end.session.value.machine.value.codeHash.code;
    || (st.Deliver? && Get(s, n).end.session.value.consent.Granted? && Head(s, n, st.c).Some?
        && Head(s, n, st.c).value.PairCodeSubmit? && Head(s, n, st.c).value.code != right)
    || (st.Work? && st.i < |Get(s, n).tasks| && Get(s, n).tasks[st.i].JudgeStored? && Get(s, n).tasks[st.i].code != right)
  }

  /** How many codes `n` has judged wrong in the first `k` steps. */
  function WrongCodes(ss: seq<System>, steps: seq<Step>, n: Node, k: nat): nat
    requires k <= |steps| <= |ss|
  {
    if k == 0 then 0 else WrongCodes(ss, steps, n, k - 1) + if JudgesWrong(ss[k - 1], steps[k - 1], n) then 1 else 0
  }

  predicate OnlyDials(steps: seq<Step>, c: Conn) {
    forall st <- steps :: st.Dial? ==> st.c == c
  }

  /** The entry of `n` agrees with the number of wrong codes judged on the one connection there is. */
  ghost predicate Counted(s: System, n: Node, c: Conn, wrong: nat) {
    && (forall p | p in s.phase :: p.conn == c)
    && wrong <= 3
    && (wrong > 0 ==> Port(n, c) in s.phase && (s.phase[Port(n, c)].Live? || s.phase[Port(n, c)].Ended?))
    && (wrong == 3 ==> Get(s, n).end.session.None?)
    && (Get(s, n).end.session.Some? ==>
          var e := Get(s, n).end.session.value;
          && e.conn == c && Port(n, c) in s.phase && s.phase[Port(n, c)].Live?
          && (!e.consent.Granted? ==> wrong == 0 && e.machine.None?)
          && (e.machine.Some? ==> e.machine.value.fails == wrong))
  }

  /** A message that is not a wrong code to judge counts nothing, and ends the entry whose loop it ends. */
  lemma OtherMessage(l: Local, c: Conn, m: Msg)
    requires l.end.session.Some? ==> l.end.session.value.conn == c
    requires m.PairCodeSubmit? && l.end.session.Some? && l.end.session.value.consent.Granted? &&
             l.end.session.value.machine.Some? ==>
               m.code == l.end.session.value.machine.value.codeHash.code
    ensures var l' := HandledLocal(l, c, m);
            && (l'.end.session.Some? <==> l.end.session.Some? && !EndsLoop(l, m))
            && (l'.end.session.Some? ==>
                  var e, e' := l.end.session.value, l'.end.session.value;
                  && e'.conn == e.conn && (e'.consent.Granted? <==> e.consent.Granted?)
                  && (e'.machine.Some? <==> e.machine.Some?)
                  && (e'.machine.Some? ==> e'.machine.value.fails == e.machine.value.fails))
  {
  }

  lemma DeliverCounted(s: System, n: Node, c: Conn, wrong: nat)
    requires Counted(s, n, c, wrong) && Enabled(s, Deliver(n, c))
    ensures Counted(Next(s, Deliver(n, c)), n, c, wrong + if JudgesWrong(s, Deliver(n, c), n) then 1 else 0)
  {
    hide Busy, Push, HandledLocal, Reply, EndsLoop;
    var l, m := Get(s, n), Head(s, n, c).value;
    if JudgesWrong(s, Deliver(n, c), n) {
      WrongCodeSent(l, l.end.session.value.machine.value, m.code);
    } else {
      OtherMessage(l, c, m);
    }
  }

  lemma WorkCounted(s: System, n: Node, i: nat, c: Conn, wrong: nat)
    requires Counted(s, n, c, wrong) && Enabled(s, Work(n, i))
    ensures Counted(Next(s, Work(n, i)), n, c, wrong + if JudgesWrong(s, Work(n, i), n) then 1 else 0)
  {
    hide Head;
    var l := Get(s, n);
    if l.tasks[i].JudgeStored? && l.end.session.Some? && l.end.session.value.machine.Some? {
      StoredCodeJudged(l, i, l.end.session.value.machine.value);
    }
  }

  /** Steps of the other node, and of this one that judge nothing. */
  lemma QuietCounted(s: System, st: Step, n: Node, c: Conn, wrong: nat)
    requires Counted(s, n, c, wrong) && Enabled(s, st) && (st.Dial? ==> st.c == c)
    requires st.n == n ==> !st.Deliver? && !st.Work?
    ensures Counted(Next(s, st), n, c, wrong)
  {
    if st.n != n {
      OtherCounted(s, st, n, c, wrong);
    } else if st.Grant? || st.Submit? || st.Deny? || st.Cancel? || st.Disconnect? || st.RemoveTrust? || st.GateTimeout? {
      AskCounted(s, st, n, c, wrong);
    } else {
      hide Busy, Push, Queue;
    }
  }

  lemma AskCounted(s: System, st: Step, n: Node, c: Conn, wrong: nat)
    requires Counted(s, n, c, wrong) && Enabled(s, st) && st.n == n
    requires st.Grant? || st.Submit? || st.Deny? || st.Cancel? || st.Disconnect? || st.RemoveTrust? || st.GateTimeout?
    ensures Counted(Next(s, st), n, c, wrong)
  {
    hide Push;
    assert Next(s, st).phase == s.phase;
  }

  lemma OtherCounted(s: System, st: Step, n: Node, c: Conn, wrong: nat)
    requires Counted(s, n, c, wrong) && Enabled(s, st) && (st.Dial? ==> st.c == c) && st.n != n
    ensures Counted(Next(s, st), n, c, wrong)
  {
    hide Counted;
    OtherSide(s, st, n);
    CountedFrame(s, Next(s, st), n, c, wrong);
  }

  /** A node's step touches neither the other's state nor its loops, but that dialling brings up a new one. */
  lemma OtherSide(s: System, st: Step, n: Node)
    requires Enabled(s, st) && st.n != n
    ensures Get(Next(s, st), n) == Get(s, n)
    ensures var ph, ph' := s.phase, Next(s, st).phase;
            && (forall p | p in ph && p.node == n :: p in ph' && ph'[p] == ph[p])
            && (forall p | p in ph' && p !in ph :: st.Dial? && p.conn == st.c)
  {
    hide Reply, HandledLocal, EndsLoop, WorkedLocal, AfterGate, AfterLoop, AfterGrant, Busy, Push, Queue;
  }

  lemma CountedFrame(s: System, s': System, n: Node, c: Conn, wrong: nat)
    requires Counted(s, n, c, wrong) && Get(s', n) == Get(s, n)
    requires forall p | p in s.phase && p.node == n :: p in s'.phase && s'.phase[p] == s.phase[p]
    requires forall p | p in s'.phase && p !in s.phase :: p.conn == c
    ensures Counted(s', n, c, wrong)
  {
  }

  lemma StepCounted(s: System, st: Step, n: Node, c: Conn, wrong: nat)
    requires Counted(s, n, c, wrong) && Enabled(s, st) && (st.Dial? ==> st.c == c)
    ensures Counted(Next(s, st), n, c, wrong + if JudgesWrong(s, st, n) then 1 else 0)
  {
    if st.n == n && st.Deliver? {
      assert Port(n, st.c) in s.phase && Port(n, st.c).conn == c;
      DeliverCounted(s, n, c, wrong);
    } else if st.n == n && st.Work? {
      WorkCounted(s, n, st.i, c, wrong);
    } else {
      assert !JudgesWrong(s, st, n);
      hide Counted, Next, Enabled;
      QuietCounted(s, st, n, c, wrong);
    }
  }

  lemma {:induction false} RunsAreCounted(ss: seq<System>, steps: seq<Step>, n: Node, c: Conn, k: nat)
    requires Run(ss, steps) && OnlyDials(steps, c) && k <= |steps|
    ensures Counted(ss[k], n, c, WrongCodes(ss, steps, n, k))
  {
    if k > 0 {
      hide Next, Enabled, Counted, JudgesWrong;
      RunsAreCounted(ss, steps, n, c, k - 1);
      assert steps[k - 1] in steps;
      StepCounted(ss[k - 1], steps[k - 1], n, c, WrongCodes(ss, steps, n, k - 1));
    }
  }

  /**
   On every run with one connection, at every moment: a node has judged at most three codes wrong, one
   stored before consent included; from the third on it has no entry; and while a code machine is in
   place its count is the number judged wrong, at most two.
   */
  lemma ThreeWrongCodesAtMost(ss: seq<System>, steps: seq<Step>, n: Node, c: Conn, k: nat)
    requires Run(ss, steps) && OnlyDials(steps, c) && k <= |steps|
    ensures var w, e := WrongCodes(ss, steps, n, k), Get(ss[k], n).end;
            && w <= 3
            && (w == 3 ==> e.session.None?)
            && (e.session.Some? && e.session.value.machine.Some? ==> e.session.value.machine.value.fails == w <= 2)
  {
    RunsAreCounted(ss, steps, n, c, k);
  }

  // ----- The judgement of the cooldown model -----

  /**
   Both models judge alike: over at the third wrong code, one more on the count before, and a completion
   on the right code, after which the machine is gone unless the node trusted already.
   */
  lemma CooldownJudgesAlike(t: Cooldowns.Trial, l: Local, m: Machine, code: Code, at: nat)
    requires Judges(l, m) && l.end.trusted == t.trusted && l.tasks == []
    ensures var t' := Cooldowns.Judge(t, m, code, at);
            var c, msg := l.end.session.value.conn, PairCodeSubmit(code);
            var l' := HandledLocal(l, c, msg);
            && (t'.phase.Over? <==> EndsLoop(l, msg))
            && (t'.phase.Over? ==> l'.end.session.None?)
            && (!t'.phase.Over? && code != m.codeHash.code ==>
                  l'.end.session.Some? && t'.phase == Cooldowns.Judging(l'.end.session.value.machine))
            && (t'.wrong == t.wrong + if Reply(l, msg) == Some(PairResult(false)) then 1 else 0)
            && (code == m.codeHash.code ==>
                  && Reply(l, msg) == Some(PairResult(true)) && t'.trusted
                  && t'.phase == Cooldowns.Judging(if l.end.trusted then l'.end.session.value.machine
                                                   else Cleared(l'.end).session.value.machine))
  {
  }
}
