/** Runs of two nodes that show what can happen: the ordinary course, and the ways it goes otherwise. */
module PairingRuns {
  import opened Prelude
  import opened PairingMachines
  import opened Pairing
  import opened PairingOutcomes
  import opened TrustRemoval

  /** Alice dials Bob over connection 0 and both loops are up. */
  lemma Connected() returns (ss: seq<System>, steps: seq<Step>)
    ensures Run(ss, steps) && Keeping(steps)
    ensures var s := ss[|steps|];
            && In(s, Alice, 0, Live) && In(s, Bob, 0, Live) && s.outbox == map[] && s.wire == map[]
            && s.alice == Fresh(false).(end := Endpoint(false, Some(Session(0, Initiator, None)), 0))
            && s.bob == Fresh(false).(end := Endpoint(false, Some(Session(0, Awaiting(None), None)), 0))
  {
    ss, steps := [Start(false, false)], [];
    ss, steps := Extend(ss, steps, Dial(Alice, 0));
    ss, steps := Extend(ss, steps, Sample(Bob, 0));
    ss, steps := Extend(ss, steps, Attach(Alice, 0));
    ss, steps := Extend(ss, steps, Attach(Bob, 0));
  }

  /** A state by its nodes and queues; connection 0 is up on both sides. */
  ghost predicate At(s: System, alice: Local, bob: Local, outbox: map<Port, seq<Msg>>, wire: map<Port, seq<Msg>>) {
    s.alice == alice && s.bob == bob && s.outbox == outbox && s.wire == wire
    && In(s, Alice, 0, Live) && In(s, Bob, 0, Live)
  }

  /** Bob grants; the rest of the grant finds no stored code. */
  lemma GrantedFirst(code: Code) returns (ss: seq<System>, steps: seq<Step>)
    ensures Run(ss, steps)
    ensures At(ss[|steps|],
               Fresh(false).(end := Endpoint(false, Some(Session(0, Initiator, None)), 0)),
               Fresh(false).(end := Endpoint(false, Some(Session(0, Granted(None), Some(NewMachine(Sha256(code))))), 0),
                             granted := {code}),
               map[Port(Bob, 0) := [ConsentGrant]], map[])
  {
    ss, steps := Connected();
    ss, steps := Extend(ss, steps, Grant(Bob, code));
    assert ss[|steps|].bob.tasks == [Release];
    ss, steps := Extend(ss, steps, Work(Bob, 0));
    assert ss[|steps|].outbox == map[Port(Bob, 0) := [ConsentGrant]];
  }

  /** Alice's code is on the wire. */
  lemma CodeSent(ss0: seq<System>, steps0: seq<Step>, code: Code) returns (ss: seq<System>, steps: seq<Step>)
    requires Run(ss0, steps0)
    requires var s := ss0[|steps0|];
             && In(s, Alice, 0, Live) && In(s, Bob, 0, Live) && s.wire == map[] && Port(Alice, 0) !in s.outbox
             && s.alice == Fresh(false).(end := Endpoint(false, Some(Session(0, Initiator, None)), 0))
    ensures Run(ss, steps)
    ensures At(ss[|steps|], ss0[|steps0|].alice.(submitted := {code}), ss0[|steps0|].bob,
               ss0[|steps0|].outbox[Port(Alice, 0) := []], map[Port(Alice, 0) := [PairCodeSubmit(code)]])
  {
    ss, steps := Extend(ss0, steps0, Submit(Alice, code));
    assert ss[|steps|].outbox == ss0[|steps0|].outbox[Port(Alice, 0) := [PairCodeSubmit(code)]];
    assert [PairCodeSubmit(code)][1..] == [];
    ss, steps := Extend(ss, steps, Flush(Alice, 0));
    assert ss[|steps|].outbox == ss0[|steps0|].outbox[Port(Alice, 0) := []];
    assert ss[|steps|].wire == map[Port(Alice, 0) := [PairCodeSubmit(code)]];
  }

  function Typed(code: Code): Local {
    Fresh(false).(end := Endpoint(false, Some(Session(0, Initiator, None)), 0), submitted := {code})
  }

  function Gate(code: Code, tasks: seq<Task>): Local {
    Fresh(false).(end := Endpoint(false, Some(Session(0, Granted(None), Some(NewMachine(Sha256(code))))), 0),
                  granted := {code}, tasks := tasks)
  }

  /** Bob has granted and Alice's code is on the wire. */
  lemma CodeTyped(code: Code) returns (ss: seq<System>, steps: seq<Step>)
    ensures Run(ss, steps)
    ensures At(ss[|steps|], Typed(code), Gate(code, []),
               map[Port(Bob, 0) := [ConsentGrant], Port(Alice, 0) := []],
               map[Port(Alice, 0) := [PairCodeSubmit(code)]])
  {
    ss, steps := GrantedFirst(code);
    ss, steps := CodeSent(ss, steps, code);
  }

  /** Bob has judged the code right and answered. */
  lemma CodeJudged(code: Code) returns (ss: seq<System>, steps: seq<Step>)
    ensures Run(ss, steps)
    ensures var m := NewMachine(Sha256(code)).(submittedOk := true);
            At(ss[|steps|], Typed(code),
               Gate(code, [Finish(Some(0))]).(end := Endpoint(false, Some(Session(0, Granted(None), Some(m))), 0)),
               map[Port(Bob, 0) := [ConsentGrant], Port(Alice, 0) := []],
               map[Port(Alice, 0) := [], Port(Bob, 0) := [PairResult(true)]])
  {
    ss, steps := CodeTyped(code);
    ss, steps := Extend(ss, steps, Deliver(Bob, 0));
    assert ss[|steps|].wire == map[Port(Alice, 0) := [], Port(Bob, 0) := [PairResult(true)]];
  }

  /** The one completion of a node that does not trust runs through. */
  lemma CompletesAlone(ss0: seq<System>, steps0: seq<Step>, n: Node) returns (ss: seq<System>, steps: seq<Step>)
    requires Run(ss0, steps0) && !Get(ss0[|steps0|], n).end.trusted
    requires |Get(ss0[|steps0|], n).tasks| == 1 && Get(ss0[|steps0|], n).tasks[0].Finish?
    ensures Run(ss, steps) && steps == steps0 + [Work(n, 0), Work(n, 0), Work(n, 0)]
    ensures var s := ss0[|steps0|];
            ss[|steps|] == Put(s, n, Get(s, n).(end := Written(Cleared(Get(s, n).end)), tasks := []))
  {
    var s := ss0[|steps0|];
    ss, steps := Extend(ss0, steps0, Work(n, 0));
    assert Get(ss[|steps|], n).tasks == [Clear(Get(s, n).tasks[0].loop)];
    ss, steps := Extend(ss, steps, Work(n, 0));
    assert Get(ss[|steps|], n).tasks == [Write(Get(s, n).tasks[0].loop)];
    ss, steps := Extend(ss, steps, Work(n, 0));
    assert Get(ss[|steps|], n).tasks == [];
  }

  /** The ordinary course: grant, read out, type in; both trust and both report once. */
  lemma PairingSucceeds(code: Code) returns (ss: seq<System>, steps: seq<Step>)
    ensures Run(ss, steps)
    ensures forall n :: Get(ss[|steps|], n).end.trusted && Get(ss[|steps|], n).end.okReports == 1
  {
    ss, steps := CodeJudged(code);
    ss, steps := CompletesAlone(ss, steps, Bob);
    ss, steps := Extend(ss, steps, Deliver(Alice, 0));
    assert ss[|steps|].alice.tasks == [Finish(Some(0))];
    ss, steps := CompletesAlone(ss, steps, Alice);
  }

  /**
   The answer goes out before trust is written: the side that is told of success may trust a peer that
   does not trust it yet.
   */
  lemma AnswerComesBeforeTrust(code: Code) returns (ss: seq<System>, steps: seq<Step>)
    ensures Run(ss, steps)
    ensures var s := ss[|steps|]; s.alice.end.trusted && !s.bob.end.trusted && s.bob.tasks == [Finish(Some(0))]
  {
    ss, steps := CodeJudged(code);
    ss, steps := Extend(ss, steps, Deliver(Alice, 0));
    assert ss[|steps|].alice.tasks == [Finish(Some(0))];
    ss, steps := CompletesAlone(ss, steps, Alice);
  }

  /** A code came before consent and has been stored. */
  lemma CodeStored(code: Code) returns (ss: seq<System>, steps: seq<Step>)
    ensures Run(ss, steps)
    ensures At(ss[|steps|], Typed(code),
               Fresh(false).(end := Endpoint(false, Some(Session(0, Awaiting(Some(code)), None)), 0)),
               map[Port(Alice, 0) := []], map[Port(Alice, 0) := []])
  {
    ss, steps := Connected();
    ss, steps := CodeSent(ss, steps, code);
    ss, steps := Extend(ss, steps, Deliver(Bob, 0));
    assert ss[|steps|].wire == map[Port(Alice, 0) := []];
    assert ss[|steps|].outbox == map[Port(Alice, 0) := []];
  }

  /** The grant finds it and is about to judge it. */
  lemma StoredCodeIsTaken(code: Code) returns (ss: seq<System>, steps: seq<Step>)
    ensures Run(ss, steps)
    ensures At(ss[|steps|], Typed(code), Gate(code, [JudgeStored(code)]),
               map[Port(Alice, 0) := [], Port(Bob, 0) := [ConsentGrant]], map[Port(Alice, 0) := []])
  {
    ss, steps := CodeStored(code);
    ss, steps := Extend(ss, steps, Grant(Bob, code));
    assert ss[|steps|].bob.tasks == [Release];
    ss, steps := Extend(ss, steps, Work(Bob, 0));
    assert ss[|steps|].outbox == map[Port(Alice, 0) := [], Port(Bob, 0) := [ConsentGrant]];
  }

  /**
   A code that arrives before consent and happens to be the one the grant makes is judged without an
   answer: the acceptor trusts, the other side does not, and nothing is under way or pending that
   would tell it. Two-way trust is therefore claimed only from a delivered `PairResult` on.
   */
  lemma StoredCodeTrustsOneWay(code: Code) returns (ss: seq<System>, steps: seq<Step>)
    ensures Run(ss, steps)
    ensures var s := ss[|steps|];
            && s.bob.end.trusted && !s.alice.end.trusted && s.alice.tasks == [] && s.bob.tasks == []
            && (forall p, m | p in s.wire && m in s.wire[p] :: !m.PairResult?)
            && (forall p, m | p in s.outbox && m in s.outbox[p] :: !m.PairResult?)
  {
    ss, steps := StoredCodeIsTaken(code);
    ss, steps := Extend(ss, steps, Work(Bob, 0));
    assert ss[|steps|].bob.tasks == [Finish(None)];
    ss, steps := CompletesAlone(ss, steps, Bob);
  }

  // ----- One code on two connections -----

  /** A state by its nodes and queues, with two connections up at Bob's. */
  ghost predicate Linked(s: System, alice: Local, bob: Local, second: Phase,
                         outbox: map<Port, seq<Msg>>, wire: map<Port, seq<Msg>>) {
    && s.alice == alice && s.bob == bob && s.outbox == outbox && s.wire == wire
    && s.phase == map[Port(Alice, 0) := Live, Port(Bob, 0) := Live, Port(Alice, 1) := second, Port(Bob, 1) := Live]
  }

  function Idle(session: Session): Local {
    Fresh(false).(end := Endpoint(false, Some(session), 0))
  }

  lemma DialledTwice() returns (ss: seq<System>, steps: seq<Step>)
    ensures Run(ss, steps) && Keeping(steps)
    ensures ss[|steps|] == Start(false, false).(phase := map[Port(Alice, 0) := Dialing, Port(Bob, 0) := Sampled(false),
                                                             Port(Alice, 1) := Dialing, Port(Bob, 1) := Sampled(false)])
  {
    ss, steps := [Start(false, false)], [];
    ss, steps := Extend(ss, steps, Dial(Alice, 0));
    ss, steps := Extend(ss, steps, Dial(Alice, 1));
    ss, steps := Extend(ss, steps, Sample(Bob, 0));
    ss, steps := Extend(ss, steps, Sample(Bob, 1));
  }

  /** Alice has dialled twice; the first connection is up, and the later of Bob's two entries is its. */
  lemma TwoConnections() returns (ss: seq<System>, steps: seq<Step>)
    ensures Run(ss, steps) && Keeping(steps)
    ensures Linked(ss[|steps|], Idle(Session(0, Initiator, None)), Idle(Session(0, Awaiting(None), None)), Dialing, map[], map[])
  {
    ss, steps := DialledTwice();
    ss, steps := Extend(ss, steps, Attach(Bob, 1));
    ss, steps := Extend(ss, steps, Attach(Bob, 0));
    ss, steps := Extend(ss, steps, Attach(Alice, 0));
  }

  lemma GrantedOnTwo(code: Code) returns (ss: seq<System>, steps: seq<Step>)
    ensures Run(ss, steps) && Keeping(steps)
    ensures Linked(ss[|steps|], Idle(Session(0, Initiator, None)), Gate(code, []), Dialing,
                   map[Port(Bob, 0) := [ConsentGrant]], map[])
  {
    ss, steps := TwoConnections();
    ss, steps := Extend(ss, steps, Grant(Bob, code));
    assert ss[|steps|].bob.tasks == [Release];
    assert ss[|steps|].outbox == map[Port(Bob, 0) := [ConsentGrant]];
    ss, steps := Extend(ss, steps, Work(Bob, 0));
  }

  /** Bob has granted, and Alice's code is under way on the first connection. */
  lemma SentOnFirst(code: Code) returns (ss: seq<System>, steps: seq<Step>)
    ensures Run(ss, steps) && Keeping(steps)
    ensures Linked(ss[|steps|], Typed(code), Gate(code, []), Dialing,
                   map[Port(Bob, 0) := [ConsentGrant], Port(Alice, 0) := []], map[Port(Alice, 0) := [PairCodeSubmit(code)]])
  {
    ss, steps := GrantedOnTwo(code);
    ss, steps := Extend(ss, steps, Submit(Alice, code));
    assert ss[|steps|].outbox == map[Port(Bob, 0) := [ConsentGrant], Port(Alice, 0) := [PairCodeSubmit(code)]];
    assert [PairCodeSubmit(code)][1..] == [];
    ss, steps := Extend(ss, steps, Flush(Alice, 0));
  }

  /** The second connection is up at Alice's too, and the code is under way on both. */
  lemma SentOnBoth(code: Code) returns (ss: seq<System>, steps: seq<Step>)
    ensures Run(ss, steps) && Keeping(steps)
    ensures Linked(ss[|steps|], Relinked(code), Gate(code, []), Live, EMPTIED,
                   map[Port(Alice, 0) := [PairCodeSubmit(code)], Port(Alice, 1) := [PairCodeSubmit(code)]])
  {
    ss, steps := SentOnFirst(code);
    ss, steps := Extend(ss, steps, Attach(Alice, 1));
    ss, steps := Extend(ss, steps, Submit(Alice, code));
    assert ss[|steps|].alice.submitted == {code};
    assert ss[|steps|].outbox ==
           map[Port(Bob, 0) := [ConsentGrant], Port(Alice, 0) := [], Port(Alice, 1) := [PairCodeSubmit(code)]];
    assert [PairCodeSubmit(code)][1..] == [];
    ss, steps := Extend(ss, steps, Flush(Alice, 1));
  }

  function Matched(code: Code, tasks: seq<Task>): Local {
    var m := NewMachine(Sha256(code)).(submittedOk := true);
    Gate(code, tasks).(end := Endpoint(false, Some(Session(0, Granted(None), Some(m))), 0))
  }

  function Relinked(code: Code): Local {
    Typed(code).(end := Endpoint(false, Some(Session(1, Initiator, None)), 0))
  }

  const EMPTIED: map<Port, seq<Msg>> := map[Port(Bob, 0) := [ConsentGrant], Port(Alice, 0) := [], Port(Alice, 1) := []]

  lemma MatchedOnce(code: Code) returns (ss: seq<System>, steps: seq<Step>)
    ensures Run(ss, steps) && Keeping(steps)
    ensures Linked(ss[|steps|], Relinked(code), Matched(code, [Finish(Some(0))]), Live, EMPTIED,
                   map[Port(Alice, 0) := [], Port(Alice, 1) := [PairCodeSubmit(code)], Port(Bob, 0) := [PairResult(true)]])
  {
    ss, steps := SentOnBoth(code);
    assert [PairCodeSubmit(code)][1..] == [];
    ss, steps := Extend(ss, steps, Deliver(Bob, 0));
  }

  /** Bob's two loops have both found the code right and answered. */
  lemma MatchedTwice(code: Code) returns (ss: seq<System>, steps: seq<Step>)
    ensures Run(ss, steps) && Keeping(steps)
    ensures Linked(ss[|steps|], Relinked(code), Matched(code, [Finish(Some(0)), Finish(Some(1))]), Live, EMPTIED,
                   map[Port(Alice, 0) := [], Port(Alice, 1) := [],
                       Port(Bob, 0) := [PairResult(true)], Port(Bob, 1) := [PairResult(true)]])
  {
    ss, steps := MatchedOnce(code);
    assert [PairCodeSubmit(code)][1..] == [];
    ss, steps := Extend(ss, steps, Deliver(Bob, 1));
  }

  /** Bob works on the first of two tasks, then on the first of what is left. */
  lemma WorksTwice(ss0: seq<System>, steps0: seq<Step>) returns (ss: seq<System>, steps: seq<Step>)
    requires Run(ss0, steps0) && Keeping(steps0) && |ss0[|steps0|].bob.tasks| == 2 && Completes(ss0[|steps0|].bob.tasks[0])
    requires var l := WorkedLocal(ss0[|steps0|].bob, 0); l.tasks != []
    ensures Run(ss, steps) && Keeping(steps)
    ensures var l := WorkedLocal(ss0[|steps0|].bob, 0); ss[|steps|].bob == WorkedLocal(l, 0)
  {
    hide WorkedLocal;
    ss, steps := Extend(ss0, steps0, Work(Bob, 0));
    ss, steps := Extend(ss, steps, Work(Bob, 0));
  }

  /** Both then look at the trust list before either writes: success is reported twice, with no trust removed. */
  lemma TwoReportsHappen(code: Code) returns (ss: seq<System>, steps: seq<Step>)
    ensures Run(ss, steps) && Keeping(steps) && ss[|steps|].bob.end.okReports == 2
  {
    ss, steps := MatchedTwice(code);
    TwoTogether(ss[|steps|].bob, Some(0), Some(1));
    ss, steps := WorksTwice(ss, steps);
    ss, steps := WorksTwice(ss, steps);
    ss, steps := WorksTwice(ss, steps);
  }

  /** Two completions that advance in turn. */
  lemma TwoTogether(l: Local, a: Option<Conn>, b: Option<Conn>)
    requires l.tasks == [Finish(a), Finish(b)] && !l.end.trusted
    ensures var l2 := WorkedLocal(WorkedLocal(l, 0), 0);
            var l4 := WorkedLocal(WorkedLocal(l2, 0), 0);
            var l5 := WorkedLocal(l4, 0);
            && l2.tasks == [Clear(a), Clear(b)] && WorkedLocal(l, 0).tasks != [] && WorkedLocal(l2, 0).tasks != []
            && l4.tasks == [Write(a), Write(b)] && l5.tasks != []
            && WorkedLocal(l5, 0).end.okReports == l.end.okReports + 2
  {
    var l1 := WorkedLocal(l, 0);
    assert l1.tasks == [Finish(b), Clear(a)];
    var l2 := WorkedLocal(l1, 0);
    assert l2.tasks == [Clear(a), Clear(b)];
    var l3 := WorkedLocal(l2, 0);
    assert l3.tasks == [Clear(b), Write(a)];
    var l4 := WorkedLocal(l3, 0);
    assert l4.tasks == [Write(a), Write(b)];
    var l5 := WorkedLocal(l4, 0);
    assert l5.tasks == [Write(b)];
  }

  /** Alice has been told of success on the first connection and trusts; a second answer is still under way. */
  lemma ToldOnce(code: Code) returns (ss: seq<System>, steps: seq<Step>)
    ensures Run(ss, steps)
    ensures var s := ss[|steps|];
            && s.alice.end.trusted && s.alice.tasks == [] && Arriving(s, Alice, 1, 0)
  {
    ss, steps := MatchedTwice(code);
    ss, steps := Extend(ss, steps, Deliver(Alice, 0));
    assert ss[|steps|].alice.tasks == [Finish(Some(0))];
    assert ss[|steps|].wire[Port(Bob, 1)] == [PairResult(true)];
    ss, steps := CompletesAlone(ss, steps, Alice);
  }

  /**
   Trust returns unasked: after Alice's user has removed trust nobody grants, types a code or has one found
   right, and Alice comes to trust Bob again.
   */
  lemma TrustReturnsUnasked(code: Code) returns (ss: seq<System>, steps: seq<Step>, r: nat)
    ensures Run(ss, steps) && r < |steps| && steps[r] == RemoveTrust(Alice)
    ensures !ss[r + 1].alice.end.trusted && ss[|steps|].alice.end.trusted
    ensures forall j | r < j < |steps| :: !Consents(ss[j], steps[j])
  {
    var ss0, steps0 := ToldOnce(code);
    r := |steps0|;
    var ss1, steps1 := Extend(ss0, steps0, RemoveTrust(Alice));
    RemovalKeepsArriving(ss0[r], 1, 0);
    ss, steps := ResultTrusts(ss1, steps1, Alice, 1, 0);
    assert steps[r] == steps1[r] && ss[r + 1] == ss1[r + 1];
  }

  lemma RemovalKeepsArriving(s: System, c: Conn, k: nat)
    requires s.alice.end.trusted && Arriving(s, Alice, c, k)
    ensures Arriving(Next(s, RemoveTrust(Alice)), Alice, c, k) && !Next(s, RemoveTrust(Alice)).alice.end.trusted
  {
  }
}
