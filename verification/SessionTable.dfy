/**
 The session table of `SessionManager`: one entry per peer fingerprint, edited by
 connection set-up, consent-gate timers, control loops that end, and disconnects.

 Every lock region of the table is one atomic step; tasks interleave freely between regions.
 A generation is drawn before the table is locked, so entries may arrive out of generation order.
 `stable_id` of a connection may be reused once no task holds that connection any more.
 */
module SessionTable {
  import opened Prelude

  /** Fingerprints are only compared. */
  type Fp = nat

  /** A connection, numbered in the order in which connections of this process came up. */
  type Conn = nat

  datatype Consent = Awaiting | Granted | Initiator

  datatype Entry = Entry(conn: Conn, connId: nat, generation: nat, consent: Consent)

  // ----- The lock regions, as functions of the table -----

  type Table = map<Fp, Entry>

  function Inserted(t: Table, fp: Fp, e: Entry): Table {
    t[fp := e]
  }

  function GateFires(t: Table, fp: Fp, generation: nat): bool {
    fp in t && t[fp].generation == generation && t[fp].consent.Awaiting?
  }

  /** The gate timer's region: entry removed only for its own generation, still waiting. */
  function AfterGate(t: Table, fp: Fp, generation: nat): Table {
    if GateFires(t, fp, generation) then t - {fp} else t
  }

  function Superseded(t: Table, fp: Fp, connId: nat): bool {
    fp in t && t[fp].connId != connId
  }

  /** The clean-up region of a control loop. */
  function AfterExit(t: Table, fp: Fp, connId: nat): Table {
    if Superseded(t, fp, connId) then t else t - {fp}
  }

  function AfterGrant(t: Table, fp: Fp): Table {
    if fp in t && t[fp].consent.Awaiting? then t[fp := t[fp].(consent := Granted)] else t
  }

  /** The part of `SessionManager` that owns the table. */
  class SessionManager {
    var sessions: Table
    var generationCounter: nat

    constructor ()
      ensures sessions == map[] && generationCounter == 0
    {
      sessions, generationCounter := map[], 0;
    }

    /** First statement of `insert_session_and_spawn`, outside the lock. */
    method DrawGeneration() returns (generation: nat)
      modifies this`generationCounter
      ensures generation == old(generationCounter) && generationCounter == old(generationCounter) + 1
    {
      generation := generationCounter;
      generationCounter := generationCounter + 1;
    }

    /** The table write of `insert_session_and_spawn`; answers whether a gate timer is armed. */
    method Insert(fp: Fp, e: Entry) returns (timer: bool)
      modifies this`sessions
      ensures sessions == Inserted(old(sessions), fp, e) && timer == e.consent.Awaiting?
    {
      sessions := sessions[fp := e];
      timer := e.consent.Awaiting?;
    }

    /** The gate timer: check, take the connection and remove in one region. */
    method GateTimeout(fp: Fp, generation: nat) returns (close: Option<Conn>)
      modifies this`sessions
      ensures sessions == AfterGate(old(sessions), fp, generation)
      ensures close == if GateFires(old(sessions), fp, generation) then Some(old(sessions)[fp].conn) else None
    {
      close := None;
      if fp in sessions {
        var s := sessions[fp];
        if s.generation == generation && s.consent.Awaiting? {
          close := Some(s.conn);
          sessions := sessions - {fp};
        }
      }
    }

    /** The clean-up region of `ctrl_loop`; answers whether SessionDown is to be sent afterwards. */
    method ExitLoop(fp: Fp, myConnId: nat) returns (down: bool)
      modifies this`sessions
      ensures sessions == AfterExit(old(sessions), fp, myConnId) && down == !Superseded(old(sessions), fp, myConnId)
    {
      var superseded := if fp in sessions then sessions[fp].connId != myConnId else false;
      if !superseded {
        sessions := sessions - {fp};
      }
      down := !superseded;
    }

    /** `disconnect`: removes whatever entry there is. */
    method Disconnect(fp: Fp) returns (removed: Option<Entry>)
      modifies this`sessions
      ensures sessions == old(sessions) - {fp}
      ensures removed == if fp in old(sessions) then Some(old(sessions)[fp]) else None
    {
      removed := if fp in sessions then Some(sessions[fp]) else None;
      sessions := sessions - {fp};
    }

    /** First region of `grant_consent`; false stands for its error answers. */
    method Grant(fp: Fp) returns (ok: bool)
      modifies this`sessions
      ensures sessions == AfterGrant(old(sessions), fp)
      ensures ok == (fp in old(sessions) && old(sessions)[fp].consent.Awaiting?)
    {
      ok := false;
      if fp in sessions {
        var s := sessions[fp];
        if s.consent.Awaiting? {
          sessions := sessions[fp := s.(consent := Granted)];
          ok := true;
        }
      }
    }

    /** `shutdown_all`: the table is drained. */
    method Drain() returns (drained: set<Fp>)
      modifies this`sessions
      ensures sessions == map[] && drained == old(sessions).Keys
    {
      drained := sessions.Keys;
      sessions := map[];
    }
  }

  // ----- All tasks together -----

  /** Where the tasks of one connection stand. */
  datatype Phase =
    | Handshaked                       // no generation yet
    | Drawn(generation: nat)           // generation drawn, table not yet locked
    | Looping(generation: nat)         // entry written, control loop running
    | Leaving(generation: nat)         // clean-up region done, SessionDown still to be sent
    | Finished(generation: nat)        // the task has dropped its handle

  /** One connection: its peer, its `stable_id`, the consent it starts with, whether its timer is armed. */
  datatype Link = Link(peer: Fp, id: nat, consent: Consent, phase: Phase, timer: bool)

  /** What happened to the table, in terms of connections rather than generations and ids. */
  datatype Event =
    | Opened(fp: Fp, conn: Conn)       // entry written
    | Left(fp: Fp, conn: Conn)         // clean-up region of that connection's loop
    | Expired(fp: Fp, conn: Conn)      // that connection's gate timer removed an entry
    | Cut(fp: Fp)                      // disconnect or shutdown of a present entry

  datatype World = World(table: Table, counter: nat, links: seq<Link>, log: seq<Event>)

  const Start: World := World(map[], 0, [], [])

  datatype Step =
    | Open(fp: Fp, id: nat, consent: Consent)
    | Draw(c: Conn)
    | Insert(c: Conn)
    | Timer(c: Conn)
    | GrantTo(fp: Fp)
    | Exit(c: Conn)
    | EmitDown(c: Conn)
    | Disconnect(fp: Fp)

  /** A connection whose handle some task still holds. */
  predicate Alive(l: Link) {
    !l.phase.Finished?
  }

  predicate Enabled(w: World, s: Step) {
    match s
    case Open(_, id, consent) => !consent.Granted? && forall c | 0 <= c < |w.links| :: Alive(w.links[c]) ==> w.links[c].id != id
    case Draw(c) => c < |w.links| && w.links[c].phase.Handshaked?
    case Insert(c) => c < |w.links| && w.links[c].phase.Drawn?
    case Timer(c) => c < |w.links| && w.links[c].timer && !w.links[c].phase.Handshaked?
    case GrantTo(_) => true
    case Exit(c) => c < |w.links| && w.links[c].phase.Looping?
    case EmitDown(c) => c < |w.links| && w.links[c].phase.Leaving?
    case Disconnect(fp) => fp in w.table
  }

  function WithPhase(w: World, c: Conn, p: Phase): World
    requires c < |w.links|
  {
    w.(links := w.links[c := w.links[c].(phase := p)])
  }

  function Next(w: World, s: Step): World
    requires Enabled(w, s)
  {
    match s
    case Open(fp, id, consent) => w.(links := w.links + [Link(fp, id, consent, Handshaked, false)])
    case Draw(c) => WithPhase(w, c, Drawn(w.counter)).(counter := w.counter + 1)
    case Insert(c) =>
      var l := w.links[c];
      var e := Entry(c, l.id, l.phase.generation, l.consent);
      w.(table := Inserted(w.table, l.peer, e),
         links := w.links[c := l.(phase := Looping(l.phase.generation), timer := l.consent.Awaiting?)],
         log := w.log + [Opened(l.peer, c)])
    case Timer(c) =>
      var l := w.links[c];
      w.(table := AfterGate(w.table, l.peer, l.phase.generation),
         links := w.links[c := l.(timer := false)],
         log := if GateFires(w.table, l.peer, l.phase.generation) then w.log + [Expired(l.peer, c)] else w.log)
    case GrantTo(fp) => w.(table := AfterGrant(w.table, fp))
    case Exit(c) =>
      var l := w.links[c];
      var g := l.phase.generation;
      WithPhase(w, c, if Superseded(w.table, l.peer, l.id) then Finished(g) else Leaving(g))
      .(table := AfterExit(w.table, l.peer, l.id), log := w.log + [Left(l.peer, c)])
    case EmitDown(c) => WithPhase(w, c, Finished(w.links[c].phase.generation))
    case Disconnect(fp) => w.(table := w.table - {fp}, log := w.log + [Cut(fp)])
  }

  /** `ws` is a run from the start: each state follows from the one before by an enabled step. */
  ghost predicate Run(ws: seq<World>, steps: seq<Step>) {
    && |ws| == |steps| + 1 && ws[0] == Start
    && forall i | 0 <= i < |steps| :: Enabled(ws[i], steps[i]) && ws[i + 1] == Next(ws[i], steps[i])
  }

  // ----- What the table should say -----

  /**
   The reference: the last connection opened to `fp`, unless that very connection has left,
   expired or been cut since. Generations and ids play no part in it.
   */
  function Current(start: Option<Conn>, log: seq<Event>, fp: Fp): Option<Conn> {
    if log == [] then start else
    var before := Current(start, log[..|log| - 1], fp);
    match log[|log| - 1]
    case Opened(f, c) => if f == fp then Some(c) else before
    case Left(f, c) => if f == fp && before == Some(c) then None else before
    case Expired(f, c) => if f == fp && before == Some(c) then None else before
    case Cut(f) => if f == fp then None else before
  }

  function Holder(t: Table, fp: Fp): Option<Conn> {
    if fp in t then Some(t[fp].conn) else None
  }

  predicate HasGeneration(p: Phase) {
    !p.Handshaked?
  }

  /** Entries belong to running loops and carry their ids and generations. */
  ghost predicate EntriesMatch(w: World) {
    forall fp | fp in w.table ::
      var e := w.table[fp];
      && e.conn < |w.links| && w.links[e.conn].peer == fp && w.links[e.conn].phase == Looping(e.generation)
      && e.connId == w.links[e.conn].id
  }

  /** Connections still held have different ids; connections that drew a generation have different ones. */
  ghost predicate Distinguishable(w: World) {
    && (forall c, d | 0 <= c < d < |w.links| ::
          Alive(w.links[c]) && Alive(w.links[d]) ==> w.links[c].id != w.links[d].id)
    && (forall c | 0 <= c < |w.links| ::
          HasGeneration(w.links[c].phase) ==> w.links[c].phase.generation < w.counter)
    && (forall c, d | 0 <= c < d < |w.links| ::
          HasGeneration(w.links[c].phase) && HasGeneration(w.links[d].phase) ==>
            w.links[c].phase.generation != w.links[d].phase.generation)
  }

  ghost predicate Logged(w: World) {
    forall fp :: Holder(w.table, fp) == Current(None, w.log, fp)
  }

  ghost predicate Consistent(w: World) {
    EntriesMatch(w) && Distinguishable(w) && Logged(w)
  }

  lemma CurrentSnoc(start: Option<Conn>, log: seq<Event>, e: Event, fp: Fp)
    ensures Current(start, log + [e], fp) ==
            match e
            case Opened(f, c) => if f == fp then Some(c) else Current(start, log, fp)
            case Left(f, c) =>
              if f == fp && Current(start, log, fp) == Some(c) then None else Current(start, log, fp)
            case Expired(f, c) =>
              if f == fp && Current(start, log, fp) == Some(c) then None else Current(start, log, fp)
            case Cut(f) => if f == fp then None else Current(start, log, fp)
  {
    assert (log + [e])[..|log|] == log;
  }

  /** The reference after a step, from the table before it. */
  lemma LogFollowsTable(w: World, s: Step)
    requires Consistent(w) && Enabled(w, s)
    ensures Logged(Next(w, s))
  {
    hide Current;
    forall fp
      ensures Holder(Next(w, s).table, fp) == Current(None, Next(w, s).log, fp)
    {
      assert Holder(w.table, fp) == Current(None, w.log, fp);
      match s
      case Open(_, _, _) =>
      case Draw(_) =>
      case Insert(c) => CurrentSnoc(None, w.log, Opened(w.links[c].peer, c), fp);
      case Timer(c) => CurrentSnoc(None, w.log, Expired(w.links[c].peer, c), fp);
      case GrantTo(_) =>
      case Exit(c) => CurrentSnoc(None, w.log, Left(w.links[c].peer, c), fp);
      case EmitDown(_) =>
      case Disconnect(f) => CurrentSnoc(None, w.log, Cut(f), fp);
    }
  }

  lemma StepKeepsDistinguishable(w: World, s: Step)
    requires Distinguishable(w) && Enabled(w, s)
    ensures Distinguishable(Next(w, s))
  {
    hide Inserted, AfterGate, GateFires, AfterGrant, AfterExit, Superseded;
  }

  lemma ExitKeepsEntries(w: World, c: Conn)
    requires EntriesMatch(w) && Distinguishable(w) && Enabled(w, Exit(c))
    ensures EntriesMatch(Next(w, Exit(c)))
  {
    var fp := w.links[c].peer;
    if fp in w.table && !Superseded(w.table, fp, w.links[c].id) {
      assert w.table[fp].conn == c;
    }
  }

  lemma StepKeepsEntries(w: World, s: Step)
    requires EntriesMatch(w) && Distinguishable(w) && Enabled(w, s)
    ensures EntriesMatch(Next(w, s))
  {
    hide Distinguishable;
    if s.Exit? {
      ExitKeepsEntries(w, s.c);
    }
  }

  lemma StepKeepsConsistent(w: World, s: Step)
    requires Consistent(w) && Enabled(w, s)
    ensures Consistent(Next(w, s))
  {
    StepKeepsDistinguishable(w, s);
    StepKeepsEntries(w, s);
    LogFollowsTable(w, s);
  }

  lemma {:induction false} RunsAreConsistent(ws: seq<World>, steps: seq<Step>)
    requires Run(ws, steps)
    ensures Consistent(ws[|steps|])
    decreases |steps|
  {
    if steps != [] {
      var n := |steps| - 1;
      RunsAreConsistent(ws[..|steps|], steps[..n]);
      StepKeepsConsistent(ws[n], steps[n]);
    }
  }

  /** On every run the table holds, for every peer, exactly the connection the reference names. */
  lemma TableIsLastConnection(ws: seq<World>, steps: seq<Step>, fp: Fp)
    requires Run(ws, steps)
    ensures Holder(ws[|steps|].table, fp) == Current(None, ws[|steps|].log, fp)
  {
    RunsAreConsistent(ws, steps);
  }

  /** The end of a log decides: opened at `i`, and not reopened since. */
  predicate LastOpened(log: seq<Event>, i: nat, fp: Fp) {
    && i < |log| && log[i].Opened? && log[i].fp == fp
    && forall j | i < j < |log| :: !(log[j].Opened? && log[j].fp == fp)
  }

  predicate Ends(e: Event, fp: Fp, c: Conn) {
    e == Left(fp, c) || e == Expired(fp, c) || e == Cut(fp)
  }

  /** The reference spelt out: the last opened connection is current until one event ends that very one. */
  lemma {:induction false} CurrentMeans(log: seq<Event>, i: nat, fp: Fp)
    requires LastOpened(log, i, fp)
    ensures var c := log[i].conn;
            Current(None, log, fp) ==
            if exists j :: i < j < |log| && Ends(log[j], fp, c) then None else Some(c)
    decreases |log|
  {
    var n := |log| - 1;
    var c := log[i].conn;
    assert log == log[..n] + [log[n]];
    CurrentSnoc(None, log[..n], log[n], fp);
    if i < n {
      CurrentMeans(log[..n], i, fp);
      if exists j :: i < j < n && Ends(log[..n][j], fp, c) {
        var j :| i < j < n && Ends(log[..n][j], fp, c);
        assert Ends(log[j], fp, c);
      } else if Ends(log[n], fp, c) {
      } else {
        assert forall j | i < j < |log| :: j < n ==> log[j] == log[..n][j];
      }
    }
  }

  /** Only the current connection's own exit or timer touches the table; an older one's never does. */
  lemma OldConnectionIsHarmless(ws: seq<World>, steps: seq<Step>, c: Conn, s: Step)
    requires Run(ws, steps)
    requires s == Exit(c) || s == Timer(c)
    requires var w := ws[|steps|]; Enabled(w, s) && Current(None, w.log, w.links[c].peer) != Some(c)
    ensures Next(ws[|steps|], s).table == ws[|steps|].table
    ensures s.Exit? && ws[|steps|].links[c].peer in ws[|steps|].table ==> Next(ws[|steps|], s).links[c].phase.Finished?
  {
    RunsAreConsistent(ws, steps);
    var w := ws[|steps|];
    var fp := w.links[c].peer;
    assert Holder(w.table, fp) == Current(None, w.log, fp);
    if fp in w.table {
      assert w.table[fp].conn != c;
    } else {
      assert w.table - {fp} == w.table;
    }
  }

  /** When a clean-up region decides for SessionDown, no entry for that peer is left. */
  lemma DownLeavesNoEntry(w: World, c: Conn)
    requires Enabled(w, Exit(c)) && Next(w, Exit(c)).links[c].phase.Leaving?
    ensures w.links[c].peer !in Next(w, Exit(c)).table
  {
  }

  /** The reference over a joined log. */
  lemma {:induction false} CurrentJoins(start: Option<Conn>, a: seq<Event>, b: seq<Event>, fp: Fp)
    ensures Current(start, a + b, fp) == Current(Current(start, a, fp), b, fp)
    decreases |b|
  {
    if b == [] {
      assert a + b == a;
    } else {
      var n := |b| - 1;
      CurrentJoins(start, a, b[..n], fp);
      assert a + b == (a + b[..n]) + [b[n]];
      CurrentSnoc(start, a + b[..n], b[n], fp);
      CurrentSnoc(Current(start, a, fp), b[..n], b[n], fp);
      assert b == b[..n] + [b[n]];
    }
  }

  /** Positions of clean-up regions: a connection in `Leaving` has left, with nothing in the table then. */
  ghost predicate LeftEmpty(w: World, c: Conn, i: nat) {
    && i < |w.log| && c < |w.links| && w.log[i] == Left(w.links[c].peer, c)
    && Current(None, w.log[..i + 1], w.links[c].peer) == None
  }

  lemma {:induction false} LeavingHasLeft(ws: seq<World>, steps: seq<Step>, c: Conn) returns (i: nat)
    requires Run(ws, steps) && c < |ws[|steps|].links| && ws[|steps|].links[c].phase.Leaving?
    ensures LeftEmpty(ws[|steps|], c, i)
    decreases |steps|
  {
    var n := |steps| - 1;
    assert steps != [];
    var w, w' := ws[n], ws[n + 1];
    RunsAreConsistent(ws, steps);
    if steps[n] == Exit(c) {
      i := |w.log|;
      DownLeavesNoEntry(w, c);
      assert w'.log[..i + 1] == w'.log;
      assert Holder(w'.table, w'.links[c].peer) == None;
    } else {
      assert c < |w.links| && w.links[c].phase.Leaving?;
      i := LeavingHasLeft(ws[..|steps|], steps[..n], c);
      assert w'.log[..i + 1] == w.log[..i + 1];
    }
  }

  /**
   SessionDown is sent after the lock is given up. At that moment an entry for the peer exists
   exactly when the events since the clean-up region, taken by themselves, leave a connection open:
   never the old one, only one opened in between.
   */
  lemma StaleDownIffReopened(ws: seq<World>, steps: seq<Step>, c: Conn) returns (i: nat)
    requires Run(ws, steps) && Enabled(ws[|steps|], EmitDown(c))
    ensures var w := ws[|steps|]; var fp := w.links[c].peer;
            && LeftEmpty(w, c, i)
            && Holder(w.table, fp) == Current(None, w.log[i + 1..], fp)
  {
    i := LeavingHasLeft(ws, steps, c);
    var w := ws[|steps|];
    TableIsLastConnection(ws, steps, w.links[c].peer);
    CurrentJoins(None, w.log[..i + 1], w.log[i + 1..], w.links[c].peer);
    assert w.log[..i + 1] + w.log[i + 1..] == w.log;
  }

  lemma Extend(ws: seq<World>, steps: seq<Step>, s: Step) returns (ws': seq<World>, steps': seq<Step>)
    requires Run(ws, steps) && Enabled(ws[|steps|], s)
    ensures Run(ws', steps') && steps' == steps + [s] && ws'[|steps'|] == Next(ws[|steps|], s)
  {
    hide Next, Enabled;
    ws', steps' := ws + [Next(ws[|steps|], s)], steps + [s];
  }

  /** Such a run exists: a reconnect slips in between the clean-up region and the event. */
  lemma StaleDownHappens() returns (ws: seq<World>, steps: seq<Step>)
    ensures Run(ws, steps)
    ensures var w := ws[|steps|]; Enabled(w, EmitDown(0)) && w.links[0].peer in w.table
  {
    ws, steps := [Start], [];
    ws, steps := Extend(ws, steps, Open(7, 1, Initiator));
    ws, steps := Extend(ws, steps, Draw(0));
    ws, steps := Extend(ws, steps, Insert(0));
    ws, steps := Extend(ws, steps, Exit(0));
    ws, steps := Extend(ws, steps, Open(7, 2, Initiator));
    ws, steps := Extend(ws, steps, Draw(1));
    ws, steps := Extend(ws, steps, Insert(1));
  }

  // ----- The regions, told by the entry's own fields -----

  /** The gate cuts an entry exactly if it is of its generation and still waiting; every other entry stays as it is. */
  lemma GateCutsIff(t: Table, fp: Fp, generation: nat)
    ensures var t' := AfterGate(t, fp, generation);
            && t' - {fp} == t - {fp}
            && (fp in t && fp !in t' <==> fp in t && t[fp].generation == generation && t[fp].consent == Awaiting)
            && (fp in t' ==> fp in t && t'[fp] == t[fp])
  {
  }

  /** A grant turns exactly the peer's waiting entry into a granted one and changes nothing else of any entry. */
  lemma GrantTurnsIff(t: Table, fp: Fp)
    ensures var t' := AfterGrant(t, fp);
            && t'.Keys == t.Keys
            && forall f | f in t ::
                 t'[f] == t[f].(consent := if f == fp && t[f].consent == Awaiting then Granted else t[f].consent)
  {
  }

  /** A loop's clean-up removes exactly an entry with its own connection id. */
  lemma ExitRemovesIff(t: Table, fp: Fp, connId: nat)
    ensures var t' := AfterExit(t, fp, connId);
            && t' - {fp} == t - {fp}
            && (fp in t' <==> fp in t && t[fp].connId != connId)
            && (fp in t' ==> t'[fp] == t[fp])
  {
  }

  /** A grant of the peer since step `i`. */
  ghost predicate GrantedSince(steps: seq<Step>, i: nat, fp: Fp) {
    exists j :: i < j < |steps| && steps[j] == GrantTo(fp)
  }

  /** The consent of an entry is its connection's own, or granted if it was waiting and a grant came since. */
  ghost predicate ConsentFrom(w: World, steps: seq<Step>, i: nat, fp: Fp)
    requires fp in w.table && w.table[fp].conn < |w.links|
  {
    var c := w.table[fp].conn;
    && i < |steps| && steps[i] == Insert(c)
    && w.table[fp].consent ==
       if w.links[c].consent.Awaiting? && GrantedSince(steps, i, fp) then Granted else w.links[c].consent
  }

  /** What an entry was before a step that did not insert it. */
  lemma EntryWas(w: World, s: Step, fp: Fp)
    requires EntriesMatch(w) && Enabled(w, s) && fp in Next(w, s).table
    requires s != Insert(Next(w, s).table[fp].conn)
    ensures fp in w.table && w.table[fp].conn < |w.links|
    ensures var e, e' := w.table[fp], Next(w, s).table[fp];
            e' == e.(consent := if s == GrantTo(fp) && e.consent == Awaiting then Granted else e.consent)
    ensures Next(w, s).links[w.table[fp].conn].consent == w.links[w.table[fp].conn].consent
  {
  }

  lemma InsertedEntry(w: World, c: Conn)
    requires Enabled(w, Insert(c))
    ensures var w', fp := Next(w, Insert(c)), w.links[c].peer;
            && fp in w'.table && w'.table[fp].conn == c && w'.table[fp].consent == w'.links[c].consent
            && forall f | f != fp && f in w'.table :: f in w.table && w'.table[f] == w.table[f]
  {
  }

  /** On every run: from where an entry has its consent. */
  lemma {:induction false} ConsentIsHistory(ws: seq<World>, steps: seq<Step>, fp: Fp) returns (i: nat)
    requires Run(ws, steps) && fp in ws[|steps|].table
    ensures ws[|steps|].table[fp].conn < |ws[|steps|].links| && ConsentFrom(ws[|steps|], steps, i, fp)
    decreases |steps|
  {
    hide Next, Enabled, Distinguishable, Logged;
    RunsAreConsistent(ws, steps);
    assert steps != [];
    var k := |steps| - 1;
    var w, w', s, before := ws[k], ws[|steps|], steps[k], steps[..k];
    RunsAreConsistent(ws[..|steps|], before);
    if s == Insert(w'.table[fp].conn) {
      i := k;
      InsertHere(w, w'.table[fp].conn, fp);
      assert !GrantedSince(steps, k, fp);
    } else {
      EntryWas(w, s, fp);
      i := ConsentIsHistory(ws[..|steps|], before, fp);
      assert steps == before + [s];
      GrantedOn(before, s, i, fp);
    }
  }

  lemma InsertHere(w: World, c: Conn, fp: Fp)
    requires Enabled(w, Insert(c)) && EntriesMatch(w) && EntriesMatch(Next(w, Insert(c)))
    requires fp in Next(w, Insert(c)).table && Next(w, Insert(c)).table[fp].conn == c
    ensures Next(w, Insert(c)).table[fp].consent == Next(w, Insert(c)).links[c].consent && c < |Next(w, Insert(c)).links|
  {
    InsertedEntry(w, c);
  }

  lemma GrantedOn(steps: seq<Step>, s: Step, i: nat, fp: Fp)
    requires i < |steps|
    ensures GrantedSince(steps + [s], i, fp) <==> GrantedSince(steps, i, fp) || s == GrantTo(fp)
  {
    var all := steps + [s];
    if GrantedSince(steps, i, fp) {
      var j :| i < j < |steps| && steps[j] == GrantTo(fp);
      assert all[j] == GrantTo(fp);
    }
    if s == GrantTo(fp) {
      assert all[|steps|] == GrantTo(fp);
    }
  }

  /**
   What the gate does over runs: the timer of the current connection cuts it exactly if that connection came
   in waiting for consent and no grant to its peer has come since its entry was written.
   */
  lemma TimerCutsIffUngranted(ws: seq<World>, steps: seq<Step>, c: Conn) returns (i: nat)
    requires Run(ws, steps) && Enabled(ws[|steps|], Timer(c))
    requires var w := ws[|steps|]; Current(None, w.log, w.links[c].peer) == Some(c)
    ensures var w, w' := ws[|steps|], Next(ws[|steps|], Timer(c));
            var fp := w.links[c].peer;
            && i < |steps| && steps[i] == Insert(c)
            && (Holder(w'.table, fp) == None <==> w.links[c].consent.Awaiting? && !GrantedSince(steps, i, fp))
            && (Holder(w'.table, fp) != None ==> w'.table == w.table)
  {
    RunsAreConsistent(ws, steps);
    var w := ws[|steps|];
    var fp := w.links[c].peer;
    assert Holder(w.table, fp) == Current(None, w.log, fp);
    i := ConsentIsHistory(ws, steps, fp);
    NoneStartsGranted(ws, steps, c);
    GateCutsIff(w.table, fp, w.links[c].phase.generation);
  }

  /** No connection comes in granted. */
  lemma {:induction false} NoneStartsGranted(ws: seq<World>, steps: seq<Step>, c: Conn)
    requires Run(ws, steps) && c < |ws[|steps|].links|
    ensures !ws[|steps|].links[c].consent.Granted?
    decreases |steps|
  {
    if steps != [] {
      var k := |steps| - 1;
      if c < |ws[k].links| {
        NoneStartsGranted(ws[..|steps|], steps[..k], c);
      }
    }
  }
}
