/**
 Pairing of two peers that both run this program. Each node has one session entry for the other,
 a trust flag, and any number of connections to the other, dialled from either side. A connection
 carries, per direction, an outbox (messages handed to its control loop) and a wire (bytes under way).

 Handlers are split where the code answers first and completes the pairing afterwards, at every lock the
 completion takes, and where a grant goes on after giving up the table lock. What is still to do is kept
 as a list of tasks; a control loop that has one takes no other message until it is done.
 */
module Pairing {
  import opened Prelude
  import opened PairingMachines

  type Conn = nat

  // ----- One endpoint -----

  datatype Consent =
    | Awaiting(pending: Option<Code>)  // acceptor, gate still closed; a code may have come early
    | Granted(pending: Option<Code>)
    | Initiator

  datatype Session = Session(conn: Conn, consent: Consent, machine: Option<Machine>)

  /** `okReports` counts the `PairingResult{ok:true}` events shown to the user of this node. */
  datatype Endpoint = Endpoint(trusted: bool, session: Option<Session>, okReports: nat)

  datatype Outcome = NotPairing | Mismatch | FailedThrice | Matched

  /** `judge_code`: the machine of whatever session is in the table. */
  function Judged(e: Endpoint, code: Code): (Endpoint, Outcome) {
    if e.session.None? || e.session.value.machine.None? then (e, NotPairing) else
    var s := e.session.value;
    var m := Submitted(s.machine.value, code);
    (e.(session := Some(s.(machine := Some(m)))),
     if VerifyCode(code, m.codeHash) then Matched else if FailedOut(m) then FailedThrice else Mismatch)
  }

  /** `PairCodeSubmit` in `ctrl_loop`, up to the outcome. */
  function AfterSubmit(e: Endpoint, code: Code): (Endpoint, Outcome) {
    match e.session
    case None => (e, NotPairing)
    case Some(s) =>
      match s.consent
      case Initiator => (e, NotPairing)
      case Awaiting(_) => (e.(session := Some(s.(consent := Awaiting(Some(code))))), NotPairing)
      case Granted(_) => Judged(e, code)
  }

  /** Second region of `complete_pairing_core`; a missing entry is passed over. */
  function Cleared(e: Endpoint): Endpoint {
    if e.session.Some? then e.(session := Some(e.session.value.(machine := None))) else e
  }

  /** Its third region, and the report that its caller then makes. */
  function Written(e: Endpoint): Endpoint {
    e.(trusted := true, okReports := e.okReports + 1)
  }

  predicate CanGrant(e: Endpoint) {
    e.session.Some? && e.session.value.consent.Awaiting?
  }

  /** First region of `grant_consent`. */
  function AfterGrant(e: Endpoint, code: Code): Endpoint
    requires CanGrant(e)
  {
    var s := e.session.value;
    e.(session := Some(Session(s.conn, Granted(s.consent.pending), Some(NewMachine(Sha256(code))))))
  }

  /** First region of `try_release_pending`. */
  function AfterTake(e: Endpoint): (Endpoint, Option<Code>) {
    if e.session.Some? && e.session.value.consent.Granted?
    then (e.(session := Some(e.session.value.(consent := Granted(None)))), e.session.value.consent.pending)
    else (e, None)
  }

  function AfterGate(e: Endpoint, conn: Conn): Endpoint {
    if CanGrant(e) && e.session.value.conn == conn then e.(session := None) else e
  }

  function AfterLoop(e: Endpoint, conn: Conn): Endpoint {
    if e.session.Some? && e.session.value.conn != conn then e else e.(session := None)
  }

  function AfterAttach(e: Endpoint, conn: Conn, consent: Consent): Endpoint {
    e.(session := Some(Session(conn, consent, None)))
  }

  /** The pairing side of `SessionManager`, for one peer. */
  class PairingEndpoint {
    var trusted: bool
    var session: Option<Session>
    var okReports: nat

    ghost function View(): Endpoint
      reads this
    {
      Endpoint(trusted, session, okReports)
    }

    constructor (trusted: bool)
      ensures View() == Endpoint(trusted, None, 0)
    {
      this.trusted, session, okReports := trusted, None, 0;
    }

    method InsertSession(conn: Conn, consent: Consent)
      modifies this
      ensures View() == AfterAttach(old(View()), conn, consent)
    {
      session := Some(Session(conn, consent, None));
    }

    method JudgeCode(code: Code) returns (o: Outcome)
      modifies this
      ensures (View(), o) == Judged(old(View()), code)
    {
      if session.None? || session.value.machine.None? {
        return NotPairing;
      }
      var pm := session.value.machine.value;
      var ok := VerifyCode(code, pm.codeHash);
      pm := if ok then pm.(submittedOk := true) else pm.(fails := (pm.fails + 1) % 256);
      session := Some(session.value.(machine := Some(pm)));
      o := if ok then Matched else if FailedOut(pm) then FailedThrice else Mismatch;
    }

    method OnPairCodeSubmit(code: Code) returns (o: Outcome)
      modifies this
      ensures (View(), o) == AfterSubmit(old(View()), code)
    {
      o := NotPairing;
      if session.Some? {
        match session.value.consent {
          case Initiator =>
          case Awaiting(_) => session := Some(session.value.(consent := Awaiting(Some(code))));
          case Granted(_) => o := JudgeCode(code);
        }
      }
    }

    /** First region of `complete_pairing_core`: nothing is left to do for a peer already trusted. */
    method CheckTrust() returns (already: bool)
      ensures already == trusted
    {
      already := trusted;
    }

    method ClearMachine()
      modifies this`session
      ensures View() == Cleared(old(View()))
    {
      if session.Some? {
        session := Some(session.value.(machine := None));
      }
    }

    method WriteTrust()
      modifies this`trusted, this`okReports
      ensures View() == Written(old(View()))
    {
      trusted := true;
      okReports := okReports + 1;
    }

    /** `complete_pairing` when no other task comes between its regions. */
    method CompletePairing() returns (first: bool)
      modifies this
      ensures first == !old(trusted) && View() == if first then Written(Cleared(old(View()))) else old(View())
    {
      var already := CheckTrust();
      if already {
        return false;
      }
      ClearMachine();
      WriteTrust();
      first := true;
    }

    method GrantConsent(code: Code) returns (ok: bool)
      modifies this
      ensures ok == CanGrant(old(View()))
      ensures View() == if ok then AfterGrant(old(View()), code) else old(View())
    {
      ok := session.Some? && session.value.consent.Awaiting?;
      if ok {
        var s := session.value;
        session := Some(Session(s.conn, Granted(s.consent.pending), Some(NewMachine(Sha256(code)))));
      }
    }

    method TakePending() returns (code: Option<Code>)
      modifies this
      ensures (View(), code) == AfterTake(old(View()))
    {
      code := None;
      if session.Some? && session.value.consent.Granted? {
        code := session.value.consent.pending;
        session := Some(session.value.(consent := Granted(None)));
      }
    }

    method GateTimeout(conn: Conn)
      modifies this
      ensures View() == AfterGate(old(View()), conn)
    {
      if session.Some? && session.value.consent.Awaiting? && session.value.conn == conn {
        session := None;
      }
    }

    method LoopEnds(conn: Conn)
      modifies this
      ensures View() == AfterLoop(old(View()), conn)
    {
      if session.None? || session.value.conn == conn {
        session := None;
      }
    }
  }

  // ----- Two nodes and their connections -----

  datatype Node = Alice | Bob

  function Other(n: Node): Node {
    if n.Alice? then Bob else Alice
  }

  datatype Msg =
    | PairCodeSubmit(code: Code)
    | PairResult(ok: bool)
    | ConsentGrant
    | ConsentDeny
    | ConsentCancel
    | Goodbye
    | TrustBroken

  /** Work a node has begun and will still do. */
  datatype Task =
    | Release                          // rest of a grant: look for a stored code
    | JudgeStored(code: Code)          // rest of a grant: judge the stored code
    | Finish(loop: Option<Conn>)       // a code matched, or success was told: look at the trust list
    | Clear(loop: Option<Conn>)        // not yet trusted: clear the code machine
    | Write(loop: Option<Conn>)        // write trust, then report

  /** The three regions of a completion, run by a control loop or at the end of a grant. */
  predicate Completes(t: Task) {
    t.Finish? || t.Clear? || t.Write?
  }

  /** A node, and what its user has done: codes its grants made, codes its user typed in. */
  datatype Local = Local(end: Endpoint, tasks: seq<Task>, granted: set<Code>, submitted: set<Code>)

  /** The control loop of connection `c` is in the middle of a completion. */
  predicate Busy(l: Local, c: Conn) {
    exists t <- l.tasks :: Completes(t) && t.loop == Some(c)
  }

  datatype Port = Port(node: Node, conn: Conn)

  /** One side of one connection. The acceptor looks at its trust list before it says Hello. */
  datatype Phase = Dialing | Incoming | Sampled(trusted: bool) | Live | Ended

  /** Queues are kept under the sending side's port. */
  datatype System = System(alice: Local, bob: Local, phase: map<Port, Phase>,
                           outbox: map<Port, seq<Msg>>, wire: map<Port, seq<Msg>>)

  function Get(s: System, n: Node): Local {
    if n.Alice? then s.alice else s.bob
  }

  function Put(s: System, n: Node, l: Local): System {
    if n.Alice? then s.(alice := l) else s.(bob := l)
  }

  function Queue(q: map<Port, seq<Msg>>, p: Port): seq<Msg> {
    if p in q then q[p] else []
  }

  function Push(q: map<Port, seq<Msg>>, p: Port, m: Msg): map<Port, seq<Msg>> {
    q[p := if p in q then q[p] + [m] else [m]]
  }

  predicate In(s: System, n: Node, c: Conn, ph: Phase) {
    Port(n, c) in s.phase && s.phase[Port(n, c)] == ph
  }

  function Fresh(trusted: bool): Local {
    Local(Endpoint(trusted, None, 0), [], {}, {})
  }

  /** Both nodes idle; either may already trust the other. */
  function Start(aliceTrusts: bool, bobTrusts: bool): System {
    System(Fresh(aliceTrusts), Fresh(bobTrusts), map[], map[], map[])
  }

  datatype Step =
    | Dial(n: Node, c: Conn)
    | Sample(n: Node, c: Conn)
    | Attach(n: Node, c: Conn)
    | Submit(n: Node, code: Code)
    | Grant(n: Node, code: Code)
    | Deny(n: Node)
    | Cancel(n: Node)
    | Disconnect(n: Node)
    | GateTimeout(n: Node, c: Conn)
    | Flush(n: Node, c: Conn)
    | Deliver(n: Node, c: Conn)
    | Lose(n: Node, c: Conn)
    | Work(n: Node, i: nat)
    | RemoveTrust(n: Node)

  predicate Enabled(s: System, st: Step) {
    match st
    case Dial(n, c) => Port(n, c) !in s.phase && Port(Other(n), c) !in s.phase
    case Sample(n, c) => In(s, n, c, Incoming)
    case Attach(n, c) => Port(n, c) in s.phase && (s.phase[Port(n, c)].Dialing? || s.phase[Port(n, c)].Sampled?)
    case Submit(n, _) => var e := Get(s, n).end; e.session.Some? && e.session.value.consent.Initiator?
    case Grant(n, _) => CanGrant(Get(s, n).end)
    case Deny(n) => CanGrant(Get(s, n).end)
    case Cancel(n) => var e := Get(s, n).end; e.session.Some? && e.session.value.consent.Granted?
    case Disconnect(n) => Get(s, n).end.session.Some?
    case GateTimeout(n, c) => true
    case Flush(n, c) => In(s, n, c, Live) && !Busy(Get(s, n), c) && Queue(s.outbox, Port(n, c)) != []
    case Deliver(n, c) => In(s, n, c, Live) && !Busy(Get(s, n), c) && Queue(s.wire, Port(Other(n), c)) != []
    case Lose(n, c) => Port(n, c) in s.phase && s.phase[Port(n, c)] != Ended && !Busy(Get(s, n), c)
    case Work(n, i) => i < |Get(s, n).tasks|
    case RemoveTrust(n) => Get(s, n).end.trusted
  }

  function WithEnd(s: System, n: Node, e: Endpoint): System {
    Put(s, n, Get(s, n).(end := e))
  }

  /** Hand a message to the control loop of the session in the table. */
  function SendCtrl(s: System, n: Node, m: Msg): System
    requires Get(s, n).end.session.Some?
  {
    s.(outbox := Push(s.outbox, Port(n, Get(s, n).end.session.value.conn), m))
  }

  function Answer(s: System, n: Node, c: Conn, m: Msg): System {
    s.(wire := Push(s.wire, Port(n, c), m))
  }

  function EndLoop(s: System, n: Node, c: Conn): System {
    WithEnd(s, n, AfterLoop(Get(s, n).end, c)).(phase := s.phase[Port(n, c) := Ended])
  }

  // ----- What a control loop does with a message, and a task with its node -----

  /** The node after its control loop for connection `c` has met `m`. */
  function HandledLocal(l: Local, c: Conn, m: Msg): Local {
    match m
    case PairCodeSubmit(code) =>
      var (e, o) := AfterSubmit(l.end, code);
      (match o
       case Matched => l.(end := e, tasks := l.tasks + [Finish(Some(c))])
       case FailedThrice => l.(end := AfterLoop(e, c))
       case _ => l.(end := e))
    case PairResult(ok) => if ok then l.(tasks := l.tasks + [Finish(Some(c))]) else l
    case ConsentGrant => l
    case TrustBroken => l.(end := AfterLoop(l.end.(trusted := false), c))
    case _ => l.(end := AfterLoop(l.end, c))
  }

  /** Written straight to the wire, ahead of anything still in the outbox. */
  function Reply(l: Local, m: Msg): Option<Msg> {
    if !m.PairCodeSubmit? then None else
    match AfterSubmit(l.end, m.code).1
    case Matched => Some(PairResult(true))
    case FailedThrice => Some(PairResult(false))
    case Mismatch => Some(PairResult(false))
    case NotPairing => None
  }

  predicate EndsLoop(l: Local, m: Msg) {
    match m
    case PairCodeSubmit(code) => AfterSubmit(l.end, code).1.FailedThrice?
    case PairResult(_) => false
    case ConsentGrant => false
    case _ => true
  }

  function Answered(s: System, n: Node, c: Conn, m: Option<Msg>): System {
    if m.Some? then Answer(s, n, c, m.value) else s
  }

  function Handled(s: System, n: Node, c: Conn, m: Msg): System {
    var l := Get(s, n);
    var s1 := Answered(Put(s, n, HandledLocal(l, c, m)), n, c, Reply(l, m));
    if EndsLoop(l, m) then s1.(phase := s1.phase[Port(n, c) := Ended]) else s1
  }

  function WorkedLocal(l: Local, i: nat): Local
    requires i < |l.tasks|
  {
    var rest := l.tasks[..i] + l.tasks[i + 1..];
    match l.tasks[i]
    case Release =>
      var (e, code) := AfterTake(l.end);
      l.(end := e, tasks := if code.Some? then rest + [JudgeStored(code.value)] else rest)
    case JudgeStored(code) =>
      var (e, o) := Judged(l.end, code);
      // a third failure here disconnects; no answer goes out in any case
      l.(end := if o.FailedThrice? then e.(session := None) else e,
         tasks := if o.Matched? then rest + [Finish(None)] else rest)
    case Finish(loop) => l.(tasks := if l.end.trusted then rest else rest + [Clear(loop)])
    case Clear(loop) => l.(end := Cleared(l.end), tasks := rest + [Write(loop)])
    case Write(_) => l.(end := Written(l.end), tasks := rest)
  }

  function Next(s: System, st: Step): System
    requires Enabled(s, st)
  {
    match st
    case Dial(n, c) => s.(phase := s.phase[Port(n, c) := Dialing][Port(Other(n), c) := Incoming])
    case Sample(n, c) => s.(phase := s.phase[Port(n, c) := Sampled(Get(s, n).end.trusted)])
    case Attach(n, c) =>
      var ph := s.phase[Port(n, c)];
      var consent := if ph.Dialing? || ph.trusted then Initiator else Awaiting(None);
      WithEnd(s, n, AfterAttach(Get(s, n).end, c, consent)).(phase := s.phase[Port(n, c) := Live])
    case Submit(n, code) =>
      SendCtrl(Put(s, n, Get(s, n).(submitted := Get(s, n).submitted + {code})), n, PairCodeSubmit(code))
    case Grant(n, code) =>
      var l := Get(s, n);
      var l' := l.(end := AfterGrant(l.end, code), granted := l.granted + {code}, tasks := l.tasks + [Release]);
      SendCtrl(Put(s, n, l'), n, ConsentGrant)
    case Deny(n) => SendCtrl(s, n, ConsentDeny)
    case Cancel(n) => SendCtrl(s, n, ConsentCancel)
    case Disconnect(n) => WithEnd(SendCtrl(s, n, Goodbye), n, Get(s, n).end.(session := None))
    case GateTimeout(n, c) => WithEnd(s, n, AfterGate(Get(s, n).end, c))
    case Flush(n, c) =>
      var q := Queue(s.outbox, Port(n, c));
      Answer(s.(outbox := s.outbox[Port(n, c) := q[1..]]), n, c, q[0])
    case Deliver(n, c) =>
      var q := Queue(s.wire, Port(Other(n), c));
      Handled(s.(wire := s.wire[Port(Other(n), c) := q[1..]]), n, c, q[0])
    case Lose(n, c) => EndLoop(s, n, c)
    case Work(n, i) => Put(s, n, WorkedLocal(Get(s, n), i))
    case RemoveTrust(n) =>
      var s1 := if Get(s, n).end.session.Some? then SendCtrl(SendCtrl(s, n, TrustBroken), n, Goodbye) else s;
      WithEnd(s1, n, Get(s, n).end.(trusted := false, session := None))
  }

  /** Each state follows from the one before by an enabled step. */
  ghost predicate Path(ss: seq<System>, steps: seq<Step>) {
    && |ss| == |steps| + 1
    && forall i | 0 <= i < |steps| :: Enabled(ss[i], steps[i]) && ss[i + 1] == Next(ss[i], steps[i])
  }

  ghost predicate Run(ss: seq<System>, steps: seq<Step>) {
    Path(ss, steps) && exists a, b :: ss[0] == Start(a, b)
  }

  /** One step of a run under construction. */
  lemma Extend(ss: seq<System>, steps: seq<Step>, st: Step) returns (ss': seq<System>, steps': seq<Step>)
    requires Run(ss, steps) && Enabled(ss[|steps|], st)
    ensures Run(ss', steps') && ss' == ss + [Next(ss[|steps|], st)] && steps' == steps + [st]
  {
    hide Next, Enabled, Start;
    ss', steps' := ss + [Next(ss[|steps|], st)], steps + [st];
  }

  // ----- No trust without a grant and the matching code -----

  /** Some code made by a grant of `n` was typed in at the other node. */
  predicate Proven(s: System, n: Node) {
    Get(s, n).granted * Get(s, Other(n)).submitted != {}
  }

  /** A message `n` has sent rests on something its user or the other user did. */
  predicate Justified(s: System, n: Node, m: Msg) {
    match m
    case PairCodeSubmit(code) => code in Get(s, n).submitted
    case PairResult(ok) => ok ==> Proven(s, n)
    case _ => true
  }

  ghost predicate QueuesJustified(s: System, q: map<Port, seq<Msg>>) {
    forall p, m | p in q && m in q[p] :: Justified(s, p.node, m)
  }

  predicate TaskJustified(s: System, n: Node, t: Task) {
    match t
    case Release => true
    case JudgeStored(code) => code in Get(s, Other(n)).submitted
    case _ => Proven(s, Alice) || Proven(s, Bob)
  }

  /** The machine is of a code this node granted; a stored code was typed in at the other node. */
  predicate SessionJustified(s: System, n: Node, session: Option<Session>) {
    session.Some? ==>
      var ses := session.value;
      && (ses.machine.Some? ==> ses.machine.value.codeHash.code in Get(s, n).granted)
      && (!ses.consent.Initiator? && ses.consent.pending.Some? ==>
            ses.consent.pending.value in Get(s, Other(n)).submitted)
  }

  ghost predicate NodeJustified(s: System, n: Node) {
    var l := Get(s, n);
    && (forall t | t in l.tasks :: TaskJustified(s, n, t))
    && SessionJustified(s, n, l.end.session)
  }

  ghost predicate Honest(s: System) {
    && NodeJustified(s, Alice) && NodeJustified(s, Bob)
    && QueuesJustified(s, s.outbox) && QueuesJustified(s, s.wire)
  }

  /** The record of grants and submissions only grows. */
  predicate Grows(s: System, s': System) {
    && s.alice.granted <= s'.alice.granted && s.alice.submitted <= s'.alice.submitted
    && s.bob.granted <= s'.bob.granted && s.bob.submitted <= s'.bob.submitted
  }

  lemma ProvenStays(s: System, s': System, n: Node)
    requires Grows(s, s') && Proven(s, n)
    ensures Proven(s', n)
  {
    var k :| k in Get(s, n).granted * Get(s, Other(n)).submitted;
    assert k in Get(s', n).granted * Get(s', Other(n)).submitted;
  }

  lemma JustifiedStays(s: System, s': System, q: map<Port, seq<Msg>>)
    requires Grows(s, s') && QueuesJustified(s, q)
    ensures QueuesJustified(s', q)
  {
    forall p, m | p in q && m in q[p]
      ensures Justified(s', p.node, m)
    {
      assert Justified(s, p.node, m);
      if m.PairResult? && m.ok { ProvenStays(s, s', p.node); }
    }
  }

  lemma PushJustified(s: System, q: map<Port, seq<Msg>>, p: Port, m: Msg)
    requires QueuesJustified(s, q) && Justified(s, p.node, m)
    ensures QueuesJustified(s, Push(q, p, m))
  {
  }

  lemma PopJustified(s: System, q: map<Port, seq<Msg>>, p: Port)
    requires QueuesJustified(s, q) && Queue(q, p) != []
    ensures Justified(s, p.node, q[p][0]) && QueuesJustified(s, q[p := q[p][1..]])
  {
    assert q[p][0] in q[p];
  }

  /** Carrying a node's justification along when nothing it rests on has changed. */
  lemma NodeStays(s: System, s': System, n: Node)
    requires Grows(s, s') && NodeJustified(s, n)
    requires Get(s', n).end.session == Get(s, n).end.session && Get(s', n).tasks == Get(s, n).tasks
    ensures NodeJustified(s', n)
  {
    if Proven(s, Alice) { ProvenStays(s, s', Alice); }
    if Proven(s, Bob) { ProvenStays(s, s', Bob); }
    forall t | t in Get(s', n).tasks
      ensures TaskJustified(s', n, t)
    {
      assert TaskJustified(s, n, t);
    }
  }

  lemma SubmitHonest(s: System, n: Node, code: Code)
    requires Honest(s) && Enabled(s, Submit(n, code))
    ensures Honest(Next(s, Submit(n, code)))
  {
    var s' := Next(s, Submit(n, code));
    NodeStays(s, s', Alice);
    NodeStays(s, s', Bob);
    JustifiedStays(s, s', s.outbox);
    JustifiedStays(s, s', s.wire);
    PushJustified(s', s.outbox, Port(n, Get(s, n).end.session.value.conn), PairCodeSubmit(code));
  }

  lemma GrantHonest(s: System, n: Node, code: Code)
    requires Honest(s) && Enabled(s, Grant(n, code))
    ensures Honest(Next(s, Grant(n, code)))
  {
    var s' := Next(s, Grant(n, code));
    NodeStays(s, s', Other(n));
    if Proven(s, Alice) { ProvenStays(s, s', Alice); }
    if Proven(s, Bob) { ProvenStays(s, s', Bob); }
    forall t | t in Get(s', n).tasks
      ensures TaskJustified(s', n, t)
    {
      if t in Get(s, n).tasks { assert TaskJustified(s, n, t); }
    }
    JustifiedStays(s, s', s.outbox);
    JustifiedStays(s, s', s.wire);
    PushJustified(s', s.outbox, Port(n, Get(s, n).end.session.value.conn), ConsentGrant);
  }

  /** A code that matches the machine in the table proves the pairing. */
  lemma MatchProves(s: System, n: Node, code: Code)
    requires NodeJustified(s, n) && code in Get(s, Other(n)).submitted
    requires Judged(Get(s, n).end, code).1.Matched?
    ensures Proven(s, n)
  {
    assert code in Get(s, n).granted * Get(s, Other(n)).submitted;
  }

  /** Replacing a node by one that rests on the same record. */
  lemma PutHonest(s: System, n: Node, l: Local)
    requires Honest(s) && l.granted == Get(s, n).granted && l.submitted == Get(s, n).submitted
    requires forall t | t in l.tasks :: TaskJustified(s, n, t)
    requires SessionJustified(s, n, l.end.session)
    ensures Honest(Put(s, n, l))
  {
    var s' := Put(s, n, l);
    NodeStays(s, s', Other(n));
    if Proven(s, Alice) { ProvenStays(s, s', Alice); }
    if Proven(s, Bob) { ProvenStays(s, s', Bob); }
    forall t | t in l.tasks
      ensures TaskJustified(s', n, t)
    {
      assert TaskJustified(s, n, t);
    }
    JustifiedStays(s, s', s.outbox);
    JustifiedStays(s, s', s.wire);
  }

  lemma WithEndHonest(s: System, n: Node, e: Endpoint)
    requires Honest(s) && SessionJustified(s, n, e.session)
    ensures Honest(WithEnd(s, n, e))
  {
    PutHonest(s, n, Get(s, n).(end := e));
  }

  /** Changes outside the nodes keep honesty when the queues stay justified. */
  lemma OutsideHonest(s: System, s': System)
    requires Honest(s) && s'.alice == s.alice && s'.bob == s.bob
    requires QueuesJustified(s, s'.outbox) && QueuesJustified(s, s'.wire)
    ensures Honest(s')
  {
    NodeStays(s, s', Alice);
    NodeStays(s, s', Bob);
    JustifiedStays(s, s', s'.outbox);
    JustifiedStays(s, s', s'.wire);
  }

  lemma AnswerHonest(s: System, n: Node, c: Conn, m: Msg)
    requires Honest(s) && Justified(s, n, m)
    ensures Honest(Answer(s, n, c, m))
  {
    PushJustified(s, s.wire, Port(n, c), m);
    OutsideHonest(s, Answer(s, n, c, m));
  }

  lemma SendCtrlHonest(s: System, n: Node, m: Msg)
    requires Honest(s) && Justified(s, n, m) && Get(s, n).end.session.Some?
    ensures Honest(SendCtrl(s, n, m))
  {
    PushJustified(s, s.outbox, Port(n, Get(s, n).end.session.value.conn), m);
    OutsideHonest(s, SendCtrl(s, n, m));
  }

  lemma EndLoopHonest(s: System, n: Node, c: Conn)
    requires Honest(s)
    ensures Honest(EndLoop(s, n, c))
  {
    WithEndHonest(s, n, AfterLoop(Get(s, n).end, c));
    OutsideHonest(WithEnd(s, n, AfterLoop(Get(s, n).end, c)), EndLoop(s, n, c));
  }

  lemma HandledSession(s: System, n: Node, c: Conn, m: Msg)
    requires NodeJustified(s, n) && Justified(s, Other(n), m)
    ensures SessionJustified(s, n, HandledLocal(Get(s, n), c, m).end.session)
  {
  }

  lemma HandledRests(s: System, n: Node, c: Conn, m: Msg)
    requires NodeJustified(s, n) && Justified(s, Other(n), m)
    ensures var l, l' := Get(s, n), HandledLocal(Get(s, n), c, m);
            && l'.granted == l.granted && l'.submitted == l.submitted
            && (forall t | t in l'.tasks :: TaskJustified(s, n, t))
    ensures Reply(Get(s, n), m).Some? ==> Justified(s, n, Reply(Get(s, n), m).value)
  {
    hide Proven, Judged, AfterLoop;
    var l := Get(s, n);
    if m.PairCodeSubmit? && AfterSubmit(l.end, m.code).1.Matched? {
      MatchProves(s, n, m.code);
    }
    forall t | t in HandledLocal(l, c, m).tasks
      ensures TaskJustified(s, n, t)
    {
      if t in l.tasks { assert TaskJustified(s, n, t); }
    }
  }

  lemma HandledHonest(s: System, n: Node, c: Conn, m: Msg)
    requires Honest(s) && Justified(s, Other(n), m)
    ensures Honest(Handled(s, n, c, m))
  {
    hide HandledLocal, Reply, EndsLoop, QueuesJustified, TaskJustified, SessionJustified, Push, Proven;
    var l := Get(s, n);
    var l' := HandledLocal(l, c, m);
    HandledRests(s, n, c, m);
    HandledSession(s, n, c, m);
    PutHonest(s, n, l');
    var s1 := Put(s, n, l');
    if Reply(l, m).Some? {
      if Proven(s, n) { ProvenStays(s, s1, n); }
      AnswerHonest(s1, n, c, Reply(l, m).value);
    }
    OutsideHonest(Answered(s1, n, c, Reply(l, m)), Handled(s, n, c, m));
  }

  lemma WorkedHonest(s: System, n: Node, i: nat)
    requires Honest(s) && i < |Get(s, n).tasks|
    ensures Honest(Put(s, n, WorkedLocal(Get(s, n), i)))
  {
    var l := Get(s, n);
    var l' := WorkedLocal(l, i);
    var rest := l.tasks[..i] + l.tasks[i + 1..];
    assert l.tasks[i] in l.tasks && TaskJustified(s, n, l.tasks[i]);
    if l.tasks[i].JudgeStored? && Judged(l.end, l.tasks[i].code).1.Matched? {
      MatchProves(s, n, l.tasks[i].code);
    }
    forall t | t in l'.tasks
      ensures TaskJustified(s, n, t)
    {
      if t in rest { assert t in l.tasks; }
    }
    PutHonest(s, n, l');
  }

  lemma StepHonest(s: System, st: Step)
    requires Honest(s) && Enabled(s, st)
    ensures Honest(Next(s, st))
  {
    match st
    case Dial(_, _) => OutsideHonest(s, Next(s, st));
    case Sample(_, _) => OutsideHonest(s, Next(s, st));
    case Attach(n, c) =>
      var ph := s.phase[Port(n, c)];
      var e := AfterAttach(Get(s, n).end, c, if ph.Dialing? || ph.trusted then Initiator else Awaiting(None));
      WithEndHonest(s, n, e);
      OutsideHonest(WithEnd(s, n, e), Next(s, st));
    case Submit(n, code) => SubmitHonest(s, n, code);
    case Grant(n, code) => GrantHonest(s, n, code);
    case Deny(n) => SendCtrlHonest(s, n, ConsentDeny);
    case Cancel(n) => SendCtrlHonest(s, n, ConsentCancel);
    case Disconnect(n) =>
      SendCtrlHonest(s, n, Goodbye);
      WithEndHonest(SendCtrl(s, n, Goodbye), n, Get(s, n).end.(session := None));
    case GateTimeout(n, c) => WithEndHonest(s, n, AfterGate(Get(s, n).end, c));
    case Flush(n, c) =>
      var p := Port(n, c);
      PopJustified(s, s.outbox, p);
      var s1 := s.(outbox := s.outbox[p := s.outbox[p][1..]]);
      OutsideHonest(s, s1);
      AnswerHonest(s1, n, c, s.outbox[p][0]);
    case Deliver(n, c) =>
      var p := Port(Other(n), c);
      PopJustified(s, s.wire, p);
      var s1 := s.(wire := s.wire[p := s.wire[p][1..]]);
      OutsideHonest(s, s1);
      HandledHonest(s1, n, c, s.wire[p][0]);
    case Lose(n, c) => EndLoopHonest(s, n, c);
    case Work(n, i) => WorkedHonest(s, n, i);
    case RemoveTrust(n) =>
      var e := Get(s, n).end.(trusted := false, session := None);
      if Get(s, n).end.session.Some? {
        SendCtrlHonest(s, n, TrustBroken);
        SendCtrlHonest(SendCtrl(s, n, TrustBroken), n, Goodbye);
        WithEndHonest(SendCtrl(SendCtrl(s, n, TrustBroken), n, Goodbye), n, e);
      } else {
        WithEndHonest(s, n, e);
      }
  }

  lemma {:induction false} PathsAreHonest(ss: seq<System>, steps: seq<Step>, k: nat)
    requires Path(ss, steps) && Honest(ss[0]) && k <= |steps|
    ensures Honest(ss[k])
  {
    hide Honest, Enabled, Next;
    if k > 0 {
      PathsAreHonest(ss, steps, k - 1);
      StepHonest(ss[k - 1], steps[k - 1]);
    }
  }

  lemma StartIsHonest(a: bool, b: bool)
    ensures Honest(Start(a, b)) && Unrecorded(Start(a, b))
  {
  }

  lemma RunsAreHonest(ss: seq<System>, steps: seq<Step>, k: nat)
    requires Run(ss, steps) && k <= |steps|
    ensures Honest(ss[k])
  {
    var a, b :| ss[0] == Start(a, b);
    StartIsHonest(a, b);
    PathsAreHonest(ss, steps, k);
  }

  // ----- Every gain of trust -----

  /** No grant or submission is on record yet. */
  predicate Unrecorded(s: System) {
    s.alice.granted == s.alice.submitted == s.bob.granted == s.bob.submitted == {}
  }

  /** The record after a step: codes of grants and submissions are added. */
  predicate Records(l: Local, l': Local, st: Step, n: Node) {
    && l'.granted == l.granted + (if st.Grant? && st.n == n then {st.code} else {})
    && l'.submitted == l.submitted + (if st.Submit? && st.n == n then {st.code} else {})
  }

  /** The task of `n` that a step runs, if it runs one. */
  function Ran(s: System, st: Step, n: Node): Option<Task> {
    if st.Work? && st.n == n && st.i < |Get(s, n).tasks| then Some(Get(s, n).tasks[st.i]) else None
  }

  predicate Checks(s: System, st: Step, n: Node) {
    Ran(s, st, n).Some? && Ran(s, st, n).value.Finish?
  }

  predicate Writes(s: System, st: Step, n: Node) {
    Ran(s, st, n).Some? && Ran(s, st, n).value.Write?
  }

  /** Steps that take trust from `n`: its user's removal, or word of the other's. */
  predicate Untrusts(s: System, st: Step, n: Node) {
    st.n == n && (st.RemoveTrust? || (st.Deliver? && Head(s, n, st.c) == Some(TrustBroken)))
  }

  /** The next message for `n` on a connection. */
  function Head(s: System, n: Node, c: Conn): Option<Msg> {
    var q := Queue(s.wire, Port(Other(n), c));
    if q == [] then None else Some(q[0])
  }

  /** Trust comes with a write and goes with a removal. */
  predicate Trusts(s: System, s': System, st: Step, n: Node) {
    Get(s', n).end.trusted <==> Writes(s, st, n) || (Get(s, n).end.trusted && !Untrusts(s, st, n))
  }

  lemma SendKeepsNodes(s: System, n: Node, m: Msg)
    requires Get(s, n).end.session.Some?
    ensures var s' := SendCtrl(s, n, m); s'.alice == s.alice && s'.bob == s.bob
  {
  }

  lemma StepRecords(s: System, st: Step, n: Node)
    requires Enabled(s, st)
    ensures Records(Get(s, n), Get(Next(s, st), n), st, n) && Trusts(s, Next(s, st), st, n)
  {
    if st.Disconnect? || st.RemoveTrust? {
      LeaveRecords(s, st, n);
    } else if st.Submit? || st.Grant? || st.Deny? || st.Cancel? || st.GateTimeout? {
      AskRecords(s, st, n);
    } else if st.Deliver? {
      HandledRecords(Get(s, st.n), st.c, Queue(s.wire, Port(Other(st.n), st.c))[0]);
    } else if st.Work? {
      WorkedRecords(Get(s, st.n), st.i);
    } else {
      NetRecords(s, st, n);
    }
  }

  lemma LeaveRecords(s: System, st: Step, n: Node)
    requires Enabled(s, st) && (st.Disconnect? || st.RemoveTrust?)
    ensures Records(Get(s, n), Get(Next(s, st), n), st, n) && Trusts(s, Next(s, st), st, n)
  {
    hide SendCtrl, Head;
    if Get(s, st.n).end.session.Some? {
      SendKeepsNodes(s, st.n, Goodbye);
      SendKeepsNodes(s, st.n, TrustBroken);
      SendKeepsNodes(SendCtrl(s, st.n, TrustBroken), st.n, Goodbye);
    }
  }

  lemma AskRecords(s: System, st: Step, n: Node)
    requires Enabled(s, st) && (st.Submit? || st.Grant? || st.Deny? || st.Cancel? || st.GateTimeout?)
    ensures Records(Get(s, n), Get(Next(s, st), n), st, n) && Trusts(s, Next(s, st), st, n)
  {
    hide SendCtrl, AfterGate, Head, Records, Trusts;
    match st
    case Submit(m, code) => SubmitRecords(s, m, code, n);
    case Grant(m, code) => GrantRecords(s, m, code, n);
    case _ => PlainRecords(s, st, n);
  }

  lemma SubmitRecords(s: System, m: Node, code: Code, n: Node)
    requires Enabled(s, Submit(m, code))
    ensures var s' := Next(s, Submit(m, code));
            Records(Get(s, n), Get(s', n), Submit(m, code), n) && Trusts(s, s', Submit(m, code), n)
  {
    hide SendCtrl, Head;
    var l := Get(s, m);
    SendKeepsNodes(Put(s, m, l.(submitted := l.submitted + {code})), m, PairCodeSubmit(code));
  }

  lemma GrantRecords(s: System, m: Node, code: Code, n: Node)
    requires Enabled(s, Grant(m, code))
    ensures var s' := Next(s, Grant(m, code));
            Records(Get(s, n), Get(s', n), Grant(m, code), n) && Trusts(s, s', Grant(m, code), n)
  {
    hide SendCtrl, Head;
    var l := Get(s, m);
    var l' := l.(end := AfterGrant(l.end, code), granted := l.granted + {code}, tasks := l.tasks + [Release]);
    SendKeepsNodes(Put(s, m, l'), m, ConsentGrant);
  }

  lemma PlainRecords(s: System, st: Step, n: Node)
    requires Enabled(s, st) && (st.Deny? || st.Cancel? || st.GateTimeout?)
    ensures Records(Get(s, n), Get(Next(s, st), n), st, n) && Trusts(s, Next(s, st), st, n)
  {
    hide SendCtrl, AfterGate, Head;
    match st
    case Deny(m) => SendKeepsNodes(s, m, ConsentDeny);
    case Cancel(m) => SendKeepsNodes(s, m, ConsentCancel);
    case GateTimeout(m, c) => GateKeepsTrust(Get(s, m).end, c);
  }

  lemma GateKeepsTrust(e: Endpoint, c: Conn)
    ensures AfterGate(e, c).trusted == e.trusted
  {
  }

  lemma NetRecords(s: System, st: Step, n: Node)
    requires Enabled(s, st) && (st.Dial? || st.Sample? || st.Attach? || st.Flush? || st.Lose?)
    ensures Records(Get(s, n), Get(Next(s, st), n), st, n) && Trusts(s, Next(s, st), st, n)
  {
    hide Push, Queue, Head;
  }

  lemma HandledRecords(l: Local, c: Conn, m: Msg)
    ensures var l' := HandledLocal(l, c, m);
            && l'.granted == l.granted && l'.submitted == l.submitted
            && (l'.end.trusted <==> l.end.trusted && !m.TrustBroken?)
  {
  }

  lemma WorkedRecords(l: Local, i: nat)
    requires i < |l.tasks|
    ensures var l' := WorkedLocal(l, i);
            && l'.granted == l.granted && l'.submitted == l.submitted
            && (l'.end.trusted <==> l.end.trusted || l.tasks[i].Write?)
  {
  }

  lemma {:induction false} HistoryIsReal(ss: seq<System>, steps: seq<Step>, j: nat, n: Node, k: Code)
    requires Path(ss, steps) && Unrecorded(ss[0]) && j <= |steps|
    ensures k in Get(ss[j], n).granted ==> Grant(n, k) in steps[..j]
    ensures k in Get(ss[j], n).submitted ==> Submit(n, k) in steps[..j]
  {
    hide Next, Enabled;
    if j > 0 {
      HistoryIsReal(ss, steps, j - 1, n, k);
      StepRecords(ss[j - 1], steps[j - 1], n);
      assert steps[..j] == steps[..j - 1] + [steps[j - 1]];
    }
  }

  /** Between a moment without trust and one with it lies a step that gains it. */
  lemma {:induction false} TrustIsGained(ss: seq<System>, i: nat, n: Node) returns (j: nat)
    requires i < |ss| && !Get(ss[i], n).end.trusted && Get(ss[|ss| - 1], n).end.trusted
    ensures i <= j < |ss| - 1 && !Get(ss[j], n).end.trusted && Get(ss[j + 1], n).end.trusted
    decreases |ss|
  {
    j := |ss| - 2;
    if Get(ss[j], n).end.trusted {
      j := TrustIsGained(ss[..|ss| - 1], i, n);
    }
  }

  /** A gain is the write of a completion, and rests on a code granted and typed in on the way to it. */
  lemma GainIsProven(ss: seq<System>, steps: seq<Step>, j: nat, n: Node) returns (acceptor: Node, code: Code)
    requires Path(ss, steps) && Honest(ss[0]) && Unrecorded(ss[0]) && j < |steps|
    requires !Get(ss[j], n).end.trusted && Get(ss[j + 1], n).end.trusted
    ensures Writes(ss[j], steps[j], n)
    ensures Grant(acceptor, code) in steps[..j] && Submit(Other(acceptor), code) in steps[..j]
  {
    hide Next, Enabled;
    StepRecords(ss[j], steps[j], n);
    PathsAreHonest(ss, steps, j);
    var s, t := ss[j], Ran(ss[j], steps[j], n).value;
    assert NodeJustified(s, n) && t in Get(s, n).tasks && TaskJustified(s, n, t);
    acceptor := if Proven(s, Alice) then Alice else Bob;
    code :| code in Get(s, acceptor).granted * Get(s, Other(acceptor)).submitted;
    HistoryIsReal(ss, steps, j, acceptor, code);
    HistoryIsReal(ss, steps, j, Other(acceptor), code);
  }

  /**
   On every run, whatever connections cross or replace each other and however often trust is removed:
   between any moment at which a node does not trust the other and a later one at which it does, some
   step writes trust, and before that step one user granted consent and the other typed in exactly the
   code which that grant made.
   */
  lemma TrustNeedsGrantAndCode(ss: seq<System>, steps: seq<Step>, i: nat, n: Node) returns (j: nat, acceptor: Node, code: Code)
    requires Run(ss, steps) && i <= |steps| && !Get(ss[i], n).end.trusted && Get(ss[|steps|], n).end.trusted
    ensures i <= j < |steps| && Writes(ss[j], steps[j], n) && !Get(ss[j], n).end.trusted && Get(ss[j + 1], n).end.trusted
    ensures Grant(acceptor, code) in steps[..j] && Submit(Other(acceptor), code) in steps[..j]
  {
    var a, b :| ss[0] == Start(a, b);
    StartIsHonest(a, b);
    j := TrustIsGained(ss, i, n);
    acceptor, code := GainIsProven(ss, steps, j, n);
  }
}
