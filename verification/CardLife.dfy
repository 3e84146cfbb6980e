/**
 Runs of the transfer table from start-up on: what becomes of a card over every interleaving of engine
 events, edits, rechecks, deletions and their clean-ups.
 */
module CardLife {
  import opened Prelude
  import opened TransferCards
  import opened Children
  import opened PeerKeys
  import opened CardTable

  /**
   The table, with its history: the ids that have left it, the ids seen cancelling, and the ids whose
   `finalize_destroy` has been decided on but not run. Of the rechecks it keeps those between their look
   and their end, how often a look found all of a parent's children done, the parents a recheck has ended,
   and the reports.
   */
  datatype Life = Life(table: Table, gone: set<nat>, marked: set<nat>, due: set<nat>,
                       looks: multiset<Look>, passed: multiset<nat>, ended: set<nat>, reports: multiset<nat>)

  /** A recheck that goes on after its look, with the number of failed children it saw. */
  datatype Look = Look(id: nat, failed: nat)

  datatype Step =
    | Create(dto: Dto)
    | Apply(id: nat, ev: Event, now: int)
    | CleanUp(id: nat)
    | Destroy(id: nat, now: int)
    | Watchdog(id: nat)
    | AddChunk(id: nat, bytes: nat, now: int)
    | NoteSpeed(id: nat, bps: nat, remoteDone: nat, health: Option<Health>, now: int)
    | PutChild(id: nat, child: Child)
    | LookAt(id: nat)
    | EndOf(look: Look, started: int, now: int)
    | Edit(id: nat, dto: Dto)
    | BindJob(job: nat, id: nat)
    | MarkRemoved(id: nat)
    | ClearTerminal

  /** `card_mutate` as its callers use it: anything but the state. */
  function Edited(t: Table, id: nat, dto: Dto): Table {
    if id !in t.cards then t
    else Put(t, id, t.cards[id].(dto := dto.(state := t.cards[id].dto.state), lastTransition := None))
  }

  /** The table after a step. `Destroy` on an ended card only decides on the clean-up. */
  function TableAfter(l: Life, s: Step): Table {
    var t := l.table;
    match s
    case Create(dto) => Created(t, dto)
    case Apply(id, ev, now) => ApplyRow(t, id, ev, now).0
    case CleanUp(id) => if id in l.due then Finalized(t, id) else t
    case Destroy(id, now) => if Live(t, id) then ApplyRow(t, id, CancelRequest, now).0 else t
    case Watchdog(id) => WatchdogFired(t, id)
    case AddChunk(id, bytes, now) => ChunkAdded(t, id, bytes, now)
    case NoteSpeed(id, bps, remoteDone, health, now) => SpeedNoted(t, id, bps, remoteDone, health, now)
    case PutChild(id, child) => ChildPut(t, id, child)
    case LookAt(id) => RecheckGuard(t, id).0
    case EndOf(k, started, now) => if k in l.looks then RecheckEnd(t, k.id, k.failed, started, now).0 else t
    case Edit(id, dto) => Edited(t, id, dto)
    case BindJob(job, id) => Bound(t, job, id)
    case MarkRemoved(id) => MarkedRemoved(t, id)
    case ClearTerminal => TerminalCleared(t)
  }

  function DueAfter(l: Life, s: Step): set<nat> {
    match s
    case Apply(id, ev, now) => if ApplyRow(l.table, id, ev, now).1 then l.due + {id} else l.due
    case CleanUp(id) => l.due - {id}
    case Destroy(id, now) => if id in l.table.cards && !Live(l.table, id) then l.due + {id} else l.due
    case _ => l.due
  }

  /** What a look finds, if its recheck goes on. */
  function Found(l: Life, s: Step): Option<nat> {
    if s.LookAt? then RecheckGuard(l.table, s.id).1 else None
  }

  function LooksAfter(l: Life, s: Step): multiset<Look> {
    if Found(l, s).Some? then l.looks + multiset{Look(s.id, Found(l, s).value)}
    else if s.EndOf? then l.looks - multiset{s.look}
    else l.looks
  }

  function PassedAfter(l: Life, s: Step): multiset<nat> {
    if Found(l, s) == Some(0) then l.passed + multiset{s.id} else l.passed
  }

  function EndedAfter(l: Life, s: Step): set<nat> {
    if s.EndOf? && s.look in l.looks then l.ended + {s.look.id} else l.ended
  }

  function ReportsAfter(l: Life, s: Step): multiset<nat> {
    if s.EndOf? && s.look in l.looks && RecheckEnd(l.table, s.look.id, s.look.failed, s.started, s.now).1.Some?
    then l.reports + multiset{s.look.id} else l.reports
  }

  function CancellingIds(t: Table): set<nat> {
    set id | id in t.cards && t.cards[id].dto.state.Cancelling?
  }

  function Do(l: Life, s: Step): Life {
    var t := TableAfter(l, s);
    Life(t, l.gone + (l.table.cards.Keys - t.cards.Keys), l.marked + CancellingIds(t), DueAfter(l, s),
         LooksAfter(l, s), PassedAfter(l, s), EndedAfter(l, s), ReportsAfter(l, s))
  }

  function After(l: Life, steps: seq<Step>): Life
    decreases |steps|
  {
    if steps == [] then l else After(Do(l, steps[0]), steps[1..])
  }

  function Boot(rows: seq<Row>): Life {
    Life(Loaded(rows), {}, CancellingIds(Loaded(rows)), {}, multiset{}, multiset{}, {}, multiset{})
  }

  // ----- Ids -----

  function Used(l: Life): set<nat> {
    l.table.cards.Keys + l.gone
  }

  function Creates(steps: seq<Step>): nat {
    if steps == [] then 0 else (if steps[0].Create? then 1 else 0) + Creates(steps[1..])
  }

  /** No card created along the way gets an id that is in the table or has been. */
  ghost predicate FreshRun(l: Life, steps: seq<Step>)
    decreases |steps|
  {
    steps == [] ||
    ((steps[0].Create? ==> l.table.nextId !in Used(l)) && FreshRun(Do(l, steps[0]), steps[1..]))
  }

  /** A step adds to the ids in use only the one a creation draws. */
  lemma UsedGrows(l: Life, s: Step)
    ensures Used(Do(l, s)) == Used(l) + if s.Create? then {l.table.nextId} else {}
    ensures Do(l, s).table.nextId == if s.Create? then (l.table.nextId + 1) % U64 else l.table.nextId
  {
    hide CardApplied, Applied, Accepts, RecheckGuard, RecheckEnd, CancellingIds, Upserted, LooksAfter, PassedAfter, ReportsAfter;
    if s.LookAt? {
      GuardKeeps(l.table, s.id);
    } else if s.EndOf? {
      EndKeepsRest(l.table, s.look, s.started, s.now);
    }
    var t, t' := l.table, TableAfter(l, s);
    assert t'.cards.Keys <= t.cards.Keys + if s.Create? then {t.nextId} else {};
  }

  lemma EndKeepsRest(t: Table, k: Look, started: int, now: int)
    ensures var t' := RecheckEnd(t, k.id, k.failed, started, now).0;
            t'.nextId == t.nextId && t'.cards.Keys <= t.cards.Keys && t'.cards - {k.id} == t.cards - {k.id}
  {
    hide RecheckEnd, EndedAs;
    if Live(t, k.id) {
      EndEnds(t, k.id, k.failed, started, now);
    } else {
      EndSparesEnded(t, k.id, k.failed, started, now);
    }
  }

  /** No id in use lies in a stretch. */
  ghost predicate Free(used: set<nat>, lo: nat, hi: nat) {
    forall id <- used :: !(lo <= id < hi)
  }

  /** Creations along a run are fresh exactly when the stretch of ids they draw is unused at its start. */
  lemma {:induction false} FreshIffStretchFree(l: Life, steps: seq<Step>)
    requires l.table.nextId + Creates(steps) <= U64
    ensures FreshRun(l, steps) <==> Free(Used(l), l.table.nextId, l.table.nextId + Creates(steps))
    decreases |steps|
  {
    hide Do, Used, Free;
    if steps == [] {
      ShortStretch(Used(l), l.table.nextId);
    } else if Creates(steps[1..]) == 0 {
      NoCreates(Do(l, steps[0]), steps[1..]);
      ShortStretch(Used(l), l.table.nextId);
    } else {
      UsedGrows(l, steps[0]);
      FreshIffStretchFree(Do(l, steps[0]), steps[1..]);
      if steps[0].Create? {
        StretchGrows(Used(l), l.table.nextId, Creates(steps[1..]));
      } else {
        assert Used(Do(l, steps[0])) == Used(l) + {} == Used(l);
      }
    }
  }

  lemma ShortStretch(used: set<nat>, next: nat)
    ensures Free(used, next, next) && (Free(used, next, next + 1) <==> next !in used)
  {
  }

  /** A stretch is free when its first id is and the rest is, that id aside. */
  lemma StretchGrows(used: set<nat>, next: nat, n: nat)
    ensures Free(used, next, next + 1 + n) <==> next !in used && Free(used + {next}, next + 1, next + 1 + n)
  {
    if next !in used && Free(used + {next}, next + 1, next + 1 + n) {
      forall id | id in used ensures !(next <= id < next + 1 + n) {
        assert id in used + {next};
      }
    }
  }

  lemma {:induction false} NoCreates(l: Life, steps: seq<Step>)
    requires Creates(steps) == 0
    ensures FreshRun(l, steps)
    decreases |steps|
  {
    if steps != [] {
      NoCreates(Do(l, steps[0]), steps[1..]);
    }
  }

  /**
   From start-up on, no id is issued twice and none that came from disk is issued, exactly when no source
   id read from disk lies within the stretch the creations draw.
   */
  lemma FreshFromBoot(rows: seq<Row>, steps: seq<Step>)
    requires Creates(steps) <= SOURCE_BASE
    ensures var first := FirstId(Ids(rows));
            FreshRun(Boot(rows), steps) <==>
              forall r <- rows :: r.id >= SOURCE_BASE ==> r.id >= first + Creates(steps)
  {
    hide Boot, FreshRun, Lifted, Creates;
    LiftedClears(CARD_ID_BASE, Ids(rows));
    BootStretch(rows, Creates(steps));
    FreshIffStretchFree(Boot(rows), steps);
  }

  lemma BootStretch(rows: seq<Row>, n: nat)
    requires n <= SOURCE_BASE
    ensures var l, first := Boot(rows), FirstId(Ids(rows));
            && l.table.nextId == first
            && (Free(Used(l), first, first + n) <==> forall r <- rows :: r.id >= SOURCE_BASE ==> r.id >= first + n)
  {
    hide Lifted;
    var l, first := Boot(rows), FirstId(Ids(rows));
    LiftedClears(CARD_ID_BASE, Ids(rows));
    CollectedIds(rows);
    assert Used(l) == Collected(rows).Keys;
    if Free(Used(l), first, first + n) {
      forall r | r in rows && r.id >= SOURCE_BASE ensures r.id >= first + n {
        assert r.id in Ids(rows) && r.id in Used(l);
      }
    }
  }

  lemma {:induction false} CollectedIds(rows: seq<Row>)
    ensures forall id :: id in Collected(rows) <==> id in Ids(rows)
    ensures forall id :: id in Ids(rows) <==> exists r <- rows :: r.id == id
  {
    if rows != [] {
      var init, last := rows[..|rows| - 1], rows[|rows| - 1];
      CollectedIds(init);
      IdsSnoc(init, last);
      assert rows == init + [last];
    }
  }

  lemma {:induction false} IdsSnoc(rows: seq<Row>, r: Row)
    ensures Ids(rows + [r]) == Ids(rows) + [r.id]
  {
    if rows != [] {
      assert (rows + [r])[1..] == rows[1..] + [r];
      IdsSnoc(rows[1..], r);
    } else {
      assert [] + [r] == [r] && [r][1..] == [];
    }
  }

  /** With every other id read from disk below 2^62, fewer than 2^62 creations are always fresh. */
  lemma FreshInPractice(rows: seq<Row>, steps: seq<Step>)
    requires Creates(steps) < 2 * SLOT
    requires forall r <- rows :: r.id < 2 * SLOT || r.id >= SOURCE_BASE
    ensures FreshRun(Boot(rows), steps)
  {
    LiftedClears(CARD_ID_BASE, Ids(rows));
    CollectedIds(rows);
    FreshFromBoot(rows, steps);
  }

  /** Two rows read from disk at the top of the card segment make the very first creation overwrite one. */
  lemma FirstCreationMayOverwrite(top: Card, source: Card, dto: Dto)
    ensures var rows := [Row(SOURCE_BASE - 1, top), Row(SOURCE_BASE, source)];
            && !FreshRun(Boot(rows), [Create(dto)])
            && SOURCE_BASE in Boot(rows).table.cards
            && Do(Boot(rows), Create(dto)).table.cards[SOURCE_BASE] == NewCard(dto)
  {
    var rows := [Row(SOURCE_BASE - 1, top), Row(SOURCE_BASE, source)];
    assert rows[1..] == [rows[1]] && rows[1..][1..] == [];
    assert Ids(rows[1..]) == [SOURCE_BASE] + Ids([]);
    assert Ids(rows) == [SOURCE_BASE - 1] + Ids(rows[1..]);
    LiftedClears(CARD_ID_BASE, Ids(rows));
    assert SOURCE_BASE - 1 == Ids(rows)[0] && Ids(rows)[0] in Ids(rows);
    assert FirstId(Ids(rows)) == SOURCE_BASE;
    CollectedIds(rows);
    assert rows[1] in rows;
    var steps := [Create(dto)];
    assert steps[1..] == [] && Creates(steps) == 1;
    FreshFromBoot(rows, steps);
  }

  // ----- What one step does to the rows -----

  /** The transition last recorded, if still there, led to the present state. */
  ghost predicate Honest(c: Card) {
    c.lastTransition.Some? ==> c.lastTransition.value.1 == c.dto.state
  }

  /**
   How a row may change short of leaving: ended rows keep their state, and a cancelling row that ends has
   its clean-up decided on.
   */
  ghost predicate RowMoves(c: Card, c': Card, due: bool) {
    && Honest(c')
    && (c'.dto.state == c.dto.state ||
        (!Terminal(c.dto.state) && (c.dto.state.Cancelling? ==> Terminal(c'.dto.state) && due)))
  }

  ghost predicate AllHonest(t: Table) {
    forall id | id in t.cards :: Honest(t.cards[id])
  }

  ghost predicate TableMoves(t: Table, t': Table, due: set<nat>) {
    && t'.cards.Keys <= t.cards.Keys
    && forall id | id in t'.cards :: RowMoves(t.cards[id], t'.cards[id], id in due)
  }

  lemma AppliedMoves(c: Card, ev: Event, now: int)
    requires Honest(c)
    ensures var a := Applied(c, ev, now);
            && RowMoves(c, a, true) && RowMoves(c, a.(lastTransition := None), true)
            && (ev.Progress? ==> a.dto.state == c.dto.state)
            && (Accepts(c, ev) && c.dto.state.Cancelling? ==>
                  (Terminal(a.dto.state) <==> a.lastTransition.Some? && Terminal(a.lastTransition.value.1)))
  {
  }

  lemma ApplyMoves(t: Table, id: nat, ev: Event, now: int, due: set<nat>)
    requires AllHonest(t) && (ApplyRow(t, id, ev, now).1 ==> id in due)
    ensures TableMoves(t, ApplyRow(t, id, ev, now).0, due)
  {
    hide Applied, Accepts;
    if id in t.cards {
      AppliedMoves(t.cards[id], ev, now);
    }
  }

  lemma ProgressMoves(t: Table, id: nat, ev: Event, now: int, due: set<nat>)
    requires AllHonest(t) && id in t.cards && ev.Progress?
    ensures TableMoves(t, Put(t, id, Applied(t.cards[id], ev, now)), due)
  {
    hide Applied, Accepts;
    AppliedMoves(t.cards[id], ev, now);
  }

  lemma EndMoves(t: Table, k: Look, started: int, now: int, due: set<nat>)
    requires AllHonest(t)
    ensures TableMoves(t, RecheckEnd(t, k.id, k.failed, started, now).0, due)
    ensures !Live(RecheckEnd(t, k.id, k.failed, started, now).0, k.id)
  {
    hide RecheckEnd;
    if Live(t, k.id) {
      EndEnds(t, k.id, k.failed, started, now);
    } else {
      EndSparesEnded(t, k.id, k.failed, started, now);
    }
  }

  lemma StepMoves(l: Life, s: Step)
    requires AllHonest(l.table) && !s.Create?
    ensures TableMoves(l.table, TableAfter(l, s), DueAfter(l, s))
  {
    hide Applied, Accepts, ApplyRow, RecheckGuard, RecheckEnd, TableMoves;
    match s
    case Apply(id, ev, now) => ApplyMoves(l.table, id, ev, now, DueAfter(l, s));
    case Destroy(id, now) => DestroyMoves(l, id, now);
    case LookAt(id) => LookMoves(l, id);
    case EndOf(k, started, now) =>
      if k in l.looks {
        EndMoves(l.table, k, started, now, DueAfter(l, s));
      } else {
        IdleMoves(l.table, l.due);
      }
    case _ => QuietMoves(l, s);
  }

  lemma IdleMoves(t: Table, due: set<nat>)
    requires AllHonest(t)
    ensures TableMoves(t, t, due)
  {
  }

  lemma LookMoves(l: Life, id: nat)
    requires AllHonest(l.table)
    ensures TableMoves(l.table, TableAfter(l, LookAt(id)), l.due)
  {
    hide RecheckGuard;
    GuardKeeps(l.table, id);
  }

  lemma QuietMoves(l: Life, s: Step)
    requires AllHonest(l.table) && !s.Create? && !s.Apply? && !s.Destroy? && !s.LookAt? && !s.EndOf?
    ensures TableMoves(l.table, TableAfter(l, s), DueAfter(l, s))
  {
    hide Applied, TableMoves, AllHonest, Slot;
    var t := l.table;
    if (s.AddChunk? || s.NoteSpeed?) && s.id in t.cards {
      var d := t.cards[s.id].dto;
      var ev := if s.AddChunk? then Progress(d.done + s.bytes, d.total, d.speed, d.remoteDone, None)
                else Progress(d.done, d.total, s.bps, s.remoteDone, s.health);
      ProgressMoves(t, s.id, ev, s.now, l.due);
    } else {
      EditMoves(l, s, DueAfter(l, s));
    }
  }

  /** The steps that leave every state as it is. */
  lemma EditMoves(l: Life, s: Step, due: set<nat>)
    requires AllHonest(l.table) && !s.Create? && !s.Apply? && !s.Destroy? && !s.LookAt? && !s.EndOf?
    requires s.AddChunk? || s.NoteSpeed? ==> s.id !in l.table.cards
    ensures TableMoves(l.table, TableAfter(l, s), due)
  {
    hide Applied, Slot;
  }

  lemma DestroyMoves(l: Life, id: nat, now: int)
    requires AllHonest(l.table)
    ensures TableMoves(l.table, TableAfter(l, Destroy(id, now)), DueAfter(l, Destroy(id, now)))
  {
    if Live(l.table, id) {
      assert !ApplyRow(l.table, id, CancelRequest, now).1;
      ApplyMoves(l.table, id, CancelRequest, now, l.due);
    }
  }

  // ----- Over runs -----

  /** A row that has been cancelling still is, or has ended with its clean-up decided on. */
  ghost predicate MarkSound(l: Life, id: nat)
    requires id in l.table.cards
  {
    var st := l.table.cards[id].dto.state;
    id in l.marked ==> st.Cancelling? || (Terminal(st) && id in l.due)
  }

  /** A parent a recheck has ended is not live, and no live one ever gets its id again. */
  ghost predicate EndSound(l: Life, id: nat) {
    id in Used(l) && !Live(l.table, id)
  }

  /** Reports, and those still possible, do not outnumber the looks that found all children done. */
  ghost predicate LookSound(l: Life, id: nat) {
    l.reports[id] + l.looks[Look(id, 0)] <= l.passed[id]
  }

  ghost predicate Sound(l: Life) {
    && AllHonest(l.table)
    && l.table.cards.Keys !! l.gone
    && l.marked <= Used(l)
    && l.due <= Used(l)
    && (forall id | id in l.table.cards :: MarkSound(l, id))
    && (forall k <- l.looks :: k.id in Used(l))
    && (forall id <- l.ended :: EndSound(l, id))
    && (forall id :: LookSound(l, id))
  }

  /**
   What is never undone: ids that left stay away, ended rows keep their state, reports stand; and once a
   recheck has ended a parent, no look at that parent passes any more.
   */
  ghost predicate Carried(l: Life, l': Life) {
    && l.gone <= l'.gone
    && l'.table.cards.Keys !! l.gone
    && l.reports <= l'.reports
    && l.ended <= l'.ended
    && (forall id <- l.ended :: l'.passed[id] == l.passed[id])
    && forall id | id in l.table.cards && Terminal(l.table.cards[id].dto.state) ::
         id in l'.gone || (id in l'.table.cards && l'.table.cards[id].dto.state == l.table.cards[id].dto.state)
  }

  lemma CreateSound(l: Life, dto: Dto)
    requires Sound(l) && l.table.nextId !in Used(l)
    ensures Sound(Do(l, Create(dto))) && Carried(l, Do(l, Create(dto)))
  {
    var l', id := Do(l, Create(dto)), l.table.nextId;
    assert l'.table.cards == l.table.cards[id := NewCard(dto)];
    assert l'.gone == l.gone;
    forall k | k in l'.table.cards ensures MarkSound(l', k) {
      assert k != id ==> MarkSound(l, k);
    }
    forall k | k in l'.ended ensures EndSound(l', k) {
      assert EndSound(l, k);
    }
    forall k ensures LookSound(l', k) {
      assert LookSound(l, k);
    }
  }

  lemma MarksStaySound(l: Life, s: Step)
    requires Sound(l) && !s.Create?
    ensures var l' := Do(l, s); forall id | id in l'.table.cards :: MarkSound(l', id)
  {
    hide TableAfter, LooksAfter, PassedAfter, EndedAfter, ReportsAfter, ApplyRow;
    StepMoves(l, s);
    var l' := Do(l, s);
    forall id | id in l'.table.cards ensures MarkSound(l', id) {
      assert RowMoves(l.table.cards[id], l'.table.cards[id], id in l'.due);
      assert MarkSound(l, id);
      assert id in l.due && id !in l'.due ==> s == CleanUp(id);
      CleanedUp(l, id);
    }
  }

  lemma CleanedUp(l: Life, id: nat)
    ensures id in l.due ==> id !in TableAfter(l, CleanUp(id)).cards && id !in Do(l, CleanUp(id)).due
  {
  }

  /** A look passes only at a live parent. */
  lemma PassesOnlyLive(l: Life, s: Step)
    ensures Found(l, s).Some? ==> Live(l.table, s.id)
  {
    hide RecheckGuard;
    if s.LookAt? {
      GuardKeeps(l.table, s.id);
    }
  }

  lemma LookStaysSound(l: Life, s: Step, id: nat)
    requires LookSound(l, id)
    ensures LookSound(Do(l, s), id)
  {
    hide TableAfter, DueAfter, RecheckGuard, RecheckEnd, CancellingIds, EndedAfter;
    if s.EndOf? && s.look !in l.looks {
      assert l.looks - multiset{s.look} == l.looks;
    } else if s.EndOf? {
      if s.look.failed > 0 {
        FailureIsNotReported(l.table, s.look, s.started, s.now);
      }
      EndTakesLook(l.looks, s.look, Look(id, 0));
    }
  }

  lemma EndTakesLook(looks: multiset<Look>, k: Look, other: Look)
    requires k in looks
    ensures (looks - multiset{k})[other] == if other == k then looks[other] - 1 else looks[other]
  {
  }

  lemma LooksStaySound(l: Life, s: Step)
    requires forall id :: LookSound(l, id)
    ensures var l' := Do(l, s); forall id :: LookSound(l', id)
  {
    hide Do, LookSound;
    forall id: nat ensures LookSound(Do(l, s), id) {
      LookStaysSound(l, s, id);
    }
  }

  lemma FailureIsNotReported(t: Table, k: Look, started: int, now: int)
    requires k.failed > 0
    ensures RecheckEnd(t, k.id, k.failed, started, now).1.None?
  {
  }

  lemma EndsStaySound(l: Life, s: Step)
    requires Sound(l) && !s.Create?
    ensures var l' := Do(l, s); forall id <- l'.ended :: EndSound(l', id)
  {
    hide TableAfter, ApplyRow, DueAfter, RecheckEnd, LooksAfter, PassedAfter, ReportsAfter, AllHonest;
    StepMoves(l, s);
    UsedGrows(l, s);
    var l' := Do(l, s);
    forall id | id in l'.ended ensures EndSound(l', id) {
      if s.EndOf? && s.look in l.looks && id == s.look.id {
        EndMoves(l.table, s.look, s.started, s.now, {});
        EndIsStep(l, s);
      } else {
        assert id in l.ended && EndSound(l, id);
        assert id in l'.table.cards ==> RowMoves(l.table.cards[id], l'.table.cards[id], id in DueAfter(l, s));
      }
    }
  }

  lemma EndIsStep(l: Life, s: Step)
    requires s.EndOf? && s.look in l.looks
    ensures TableAfter(l, s) == RecheckEnd(l.table, s.look.id, s.look.failed, s.started, s.now).0
  {
  }

  lemma LooksStayUsed(l: Life, s: Step)
    requires Sound(l) && !s.Create?
    ensures var l' := Do(l, s); forall k <- l'.looks :: k.id in Used(l')
  {
    hide TableAfter, DueAfter, PassedAfter, EndedAfter, ReportsAfter, Found, MarkSound, LookSound, EndSound, AllHonest;
    UsedGrows(l, s);
    PassesOnlyLive(l, s);
  }

  lemma StepSound(l: Life, s: Step)
    requires Sound(l) && (s.Create? ==> l.table.nextId !in Used(l))
    ensures Sound(Do(l, s)) && Carried(l, Do(l, s))
  {
    if s.Create? {
      CreateSound(l, s.dto);
    } else {
      MarksStaySound(l, s);
      LooksStaySound(l, s);
      EndsStaySound(l, s);
      LooksStayUsed(l, s);
      StepRest(l, s);
    }
  }

  lemma StepRest(l: Life, s: Step)
    requires Sound(l) && !s.Create?
    ensures var l' := Do(l, s);
            AllHonest(l'.table) && l'.table.cards.Keys !! l'.gone && l'.marked <= Used(l') && l'.due <= Used(l')
    ensures Carried(l, Do(l, s))
  {
    hide TableAfter, ApplyRow, RecheckGuard, RecheckEnd, MarkSound, LookSound, Found, LooksAfter;
    StepMoves(l, s);
    DueStaysUsed(l, s);
    PassesOnlyLive(l, s);
    forall id | id in l.ended ensures PassedAfter(l, s)[id] == l.passed[id] {
      assert EndSound(l, id);
    }
  }

  lemma DueStaysUsed(l: Life, s: Step)
    ensures Do(l, s).due <= l.due + l.table.cards.Keys
  {
    hide Applied, Accepts;
  }

  /**
   Over every run whose creations are fresh, the halves of rechecks interleaved with everything else: an id
   that left the table never comes back, an ended row never changes state, a row that has been cancelling
   and ended has its clean-up decided on.
   */
  lemma {:induction false} RunsAreSound(l: Life, steps: seq<Step>)
    requires Sound(l) && FreshRun(l, steps)
    ensures Sound(After(l, steps)) && Carried(l, After(l, steps))
    decreases |steps|
  {
    if steps != [] {
      hide Do, Sound;
      StepSound(l, steps[0]);
      RunsAreSound(Do(l, steps[0]), steps[1..]);
    } else {
      assert Carried(l, l);
    }
  }

  /**
   However many rechecks of a parent overlap: from the first that ends it on, it is never reported more often
   than looks had found all its children done by then.
   */
  lemma ReportsWithinEarlyLooks(l: Life, steps: seq<Step>, id: nat)
    requires Sound(l) && FreshRun(l, steps) && id in l.ended
    ensures After(l, steps).reports[id] <= l.passed[id]
  {
    hide Sound, FreshRun;
    RunsAreSound(l, steps);
    SoundMeans(After(l, steps), id);
  }

  lemma SoundMeans(l: Life, id: nat)
    requires Sound(l)
    ensures LookSound(l, id) && l.reports[id] <= l.passed[id]
  {
    assert LookSound(l, id);
  }

  /** No recheck of a parent looks while another of the same parent is between its halves. */
  ghost predicate OneAtATime(l: Life, steps: seq<Step>)
    decreases |steps|
  {
    steps == [] ||
    ((steps[0].LookAt? ==> forall k <- l.looks :: k.id != steps[0].id) && OneAtATime(Do(l, steps[0]), steps[1..]))
  }

  /** At most one look has found all done, and its recheck is under way or has ended the parent. */
  ghost predicate Single(l: Life) {
    forall id :: l.passed[id] <= 1 && (l.passed[id] == 1 ==> id in l.ended || Look(id, 0) in l.looks)
  }

  lemma StepSingle(l: Life, s: Step)
    requires Sound(l) && Single(l) && (s.LookAt? ==> forall k <- l.looks :: k.id != s.id)
    ensures Single(Do(l, s))
  {
    hide TableAfter, DueAfter, ReportsAfter, RecheckGuard, RecheckEnd, CancellingIds, MarkSound, LookSound, AllHonest;
    PassesOnlyLive(l, s);
    var l' := Do(l, s);
    forall id ensures l'.passed[id] <= 1 && (l'.passed[id] == 1 ==> id in l'.ended || Look(id, 0) in l'.looks) {
      assert id in l.ended ==> EndSound(l, id);
    }
  }

  /** Rechecks of one parent that do not overlap report it at most once. */
  lemma {:induction false} OneReportOneAtATime(l: Life, steps: seq<Step>, id: nat)
    requires Sound(l) && Single(l) && FreshRun(l, steps) && OneAtATime(l, steps)
    ensures After(l, steps).reports[id] <= 1
    decreases |steps|
  {
    if steps != [] {
      hide Do, Sound, Single;
      StepSound(l, steps[0]);
      StepSingle(l, steps[0]);
      OneReportOneAtATime(Do(l, steps[0]), steps[1..], id);
    } else {
      SoundMeans(l, id);
    }
  }

  /** A loaded table is a sound start: rows read from disk have no transition on record. */
  lemma BootIsSound(rows: seq<Row>)
    requires forall r <- rows :: r.card.lastTransition == None
    ensures Sound(Boot(rows)) && Single(Boot(rows))
  {
    CollectedFrom(rows);
  }

  lemma {:induction false} CollectedFrom(rows: seq<Row>)
    ensures forall id | id in Collected(rows) :: exists r <- rows :: r.card == Collected(rows)[id]
  {
    if rows != [] {
      CollectedFrom(rows[..|rows| - 1]);
      assert rows[|rows| - 1] in rows;
    }
  }

  /** Once no clean-up is outstanding, no ended row in the table has ever been cancelling. */
  lemma QuietTableIsClean(rows: seq<Row>, steps: seq<Step>)
    requires (forall r <- rows :: r.card.lastTransition == None) && FreshRun(Boot(rows), steps)
    ensures var l := After(Boot(rows), steps);
            l.due == {} ==> forall id <- l.marked :: id in l.table.cards ==> !Terminal(l.table.cards[id].dto.state)
  {
    hide Boot, FreshRun;
    BootIsSound(rows);
    RunsAreSound(Boot(rows), steps);
    var l := After(Boot(rows), steps);
    forall id | id in l.marked && id in l.table.cards && l.due == {} ensures !Terminal(l.table.cards[id].dto.state) {
      assert MarkSound(l, id);
    }
  }
}
