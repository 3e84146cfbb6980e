/**
 The desktop shell's transfer table: which card an event reaches, how a cancelled card leaves the table,
 how a batch parent ends, and how a push's source jobs find the card that waits for them.
 One function is one call; a call that takes the lock more than once is a composition of its regions.
 */
module CardTable {
  import opened Prelude
  import opened TransferCards
  import opened Children
  import opened PeerKeys

  datatype Table = Table(cards: map<nat, Card>, engineToCard: map<nat, nat>, pending: map<nat, nat>,
                         offers: map<nat, nat>, nextId: nat)

  function Put(t: Table, id: nat, c: Card): Table {
    t.(cards := t.cards[id := c])
  }

  predicate Live(t: Table, id: nat) {
    id in t.cards && !Terminal(t.cards[id].dto.state)
  }

  // ----- Events -----

  /** The locked region of `card_apply`, and whether a destroyed card's clean-up is now due. */
  function ApplyRow(t: Table, id: nat, ev: Event, now: int): (Table, bool) {
    if id !in t.cards || !Accepts(t.cards[id], ev) then (t, false) else
    var c, a := t.cards[id], Applied(t.cards[id], ev, now);
    (Put(t, id, a.(lastTransition := None)),
     c.dto.state.Cancelling? && a.lastTransition.Some? && Terminal(a.lastTransition.value.1))
  }

  /** `finalize_destroy`: the row goes, the routes to it stay. */
  function Finalized(t: Table, id: nat): Table {
    t.(cards := t.cards - {id})
  }

  function CardApplied(t: Table, id: nat, ev: Event, now: int): Table {
    var (t', due) := ApplyRow(t, id, ev, now);
    if due then Finalized(t', id) else t'
  }

  /** `card_id_of`: an engine job without a route is looked up as a card id. */
  function CardIdOf(t: Table, job: nat): nat {
    if job in t.engineToCard then t.engineToCard[job] else job
  }

  function EventRouted(t: Table, job: nat, ev: Event, now: int): Table {
    CardApplied(t, CardIdOf(t, job), ev, now)
  }

  function Bound(t: Table, job: nat, id: nat): Table {
    var t' := BoundPassive(t, job, id);
    if id !in t.cards then t' else
    var c := t.cards[id];
    Put(t', id, c.(engineId := Some(job), dto := c.dto.(partsId := Some(job))))
  }

  function BoundPassive(t: Table, job: nat, id: nat): Table {
    t.(engineToCard := t.engineToCard[job := id])
  }

  function Created(t: Table, dto: Dto): Table {
    Put(t, t.nextId, NewCard(dto)).(nextId := (t.nextId + 1) % U64)
  }

  function MarkedRemoved(t: Table, id: nat): Table {
    if id in t.cards then Put(t, id, t.cards[id].(removed := true)) else t
  }

  function TerminalCleared(t: Table): Table {
    t.(cards := map id | id in t.cards && !Terminal(t.cards[id].dto.state) :: t.cards[id])
  }

  function ChunkAdded(t: Table, id: nat, bytes: nat, now: int): Table {
    if id !in t.cards then t else
    var c := t.cards[id];
    Put(t, id, Applied(c, Progress(c.dto.done + bytes, c.dto.total, c.dto.speed, c.dto.remoteDone, None), now))
  }

  function SpeedNoted(t: Table, id: nat, bps: nat, remoteDone: nat, health: Option<Health>, now: int): Table {
    if id !in t.cards then t
    else Put(t, id, Applied(t.cards[id], SpeedEvent(t.cards[id], bps, remoteDone, health), now))
  }

  function ChildPut(t: Table, id: nat, ch: Child): Table {
    if id in t.cards then Put(t, id, t.cards[id].(dto := Upserted(t.cards[id].dto, ch))) else t
  }

  /** One child put into a parent: its row is the incoming child, all else of the table as it was but for the two counts. */
  lemma ChildPutMeans(t: Table, id: nat, ch: Child) returns (i: nat)
    requires id in t.cards
    ensures var t' := ChildPut(t, id, ch);
            && id in t'.cards && t' == t.(cards := t'.cards) && t'.cards - {id} == t.cards - {id}
            && var d, d' := t.cards[id].dto, t'.cards[id].dto;
            && t'.cards[id] == t.cards[id].(dto := d')
            && d' == d.(children := d'.children, done := d'.done, total := d'.total)
            && Goes(d.children, ch, i) && RowPut(d.children, d'.children, ch, i)
            && d'.total == (if i < |d.children| then d.total else SatAdd(d.total, ch.total))
            && d'.done == if i < |d.children| then SatAdd(SatSub(d.done, d.children[i].done), d'.children[i].done)
                          else SatAdd(d.done, ch.done)
  {
    hide Upserted, Goes;
    i := Slot(t.cards[id].dto.children, ch);
    UpsertPutsRow(t.cards[id].dto, ch);
  }

  // ----- When a batch parent ends -----

  predicate Ended(ch: Child) {
    ch.state.Done? || ch.state.Failed?
  }

  predicate AllEnded(cs: seq<Child>) {
    cs != [] && forall c <- cs :: Ended(c)
  }

  function FailedCount(cs: seq<Child>): nat {
    if cs == [] then 0 else (if cs[0].state.Failed? then 1 else 0) + FailedCount(cs[1..])
  }

  function Digits(n: nat): string {
    if n < 10 then ["0123456789"[n]] else Digits(n / 10) + ["0123456789"[n % 10]]
  }

  function FailedReason(n: nat): string {
    Digits(n) + " 项失败"
  }

  function Unpended(t: Table, key: nat, id: nat): Table {
    if key in t.pending && t.pending[key] == id then t.(pending := t.pending - {key}) else t
  }

  /** `recheck_parent_terminal` up to its look at the parent's state: how many failed, if it goes on. */
  function RecheckGuard(t: Table, id: nat): (Table, Option<nat>) {
    if id !in t.cards || !AllEnded(t.cards[id].dto.children) then (t, None) else
    var d := t.cards[id].dto;
    var t' := if |d.peer| == 32 then Unpended(t, BatchKey(d.peer), id) else t;
    (t', if Terminal(d.state) then None else Some(FailedCount(d.children)))
  }

  type Toast = Option<(string, string)>

  /** The rest of it, with the clock at the parent's start and end. */
  function RecheckEnd(t: Table, id: nat, failed: nat, started: int, now: int): (Table, Toast) {
    if failed > 0 then (CardApplied(t, id, Fail(Some(FailedReason(failed))), now), None) else
    var t1 := if id in t.cards && t.cards[id].dto.state.Pending? then CardApplied(t, id, Start, started) else t;
    var t2 := CardApplied(t1, id, Finish, now);
    (t2, if id in t2.cards then Some((t2.cards[id].dto.name, t2.cards[id].dto.direction)) else None)
  }

  function Recheck(t: Table, id: nat, started: int, now: int): (Table, Toast) {
    var (t', failed) := RecheckGuard(t, id);
    if failed.None? then (t', None) else RecheckEnd(t', id, failed.value, started, now)
  }

  lemma {:induction false} SomeFailed(cs: seq<Child>)
    ensures FailedCount(cs) > 0 <==> exists c <- cs :: c.state.Failed?
  {
    if cs != [] {
      SomeFailed(cs[1..]);
      assert cs == [cs[0]] + cs[1..];
    }
  }

  /** The parent's card once it has ended: failed for a reason, or done in full; the rest as it was. */
  ghost predicate EndedAs(c: Card, c': Card, failed: nat) {
    && c'.dto.children == c.dto.children && c'.dto.name == c.dto.name && c'.dto.direction == c.dto.direction
    && c'.dto.total == c.dto.total && c'.lastTransition == None
    && (if failed > 0 then c'.dto.state == Failed && c'.dto.failReason == Some(FailedReason(failed))
        else c'.dto.state == Done && c'.dto.done == c.dto.total)
  }

  /** A live card that may take an end takes it: in the table, or out of it if it was cancelling. */
  lemma EndApplies(t: Table, id: nat, failed: nat, now: int)
    requires Live(t, id) && (failed > 0 || !t.cards[id].dto.state.Pending?)
    ensures var t' := CardApplied(t, id, if failed > 0 then Fail(Some(FailedReason(failed))) else Finish, now);
            if t.cards[id].dto.state.Cancelling? then t' == Finalized(t, id)
            else id in t'.cards && t' == Put(t, id, t'.cards[id]) && EndedAs(t.cards[id], t'.cards[id], failed)
  {
    hide FailedReason;
    var ev := if failed > 0 then Fail(Some(FailedReason(failed))) else Finish;
    var (t', due) := ApplyRow(t, id, ev, now);
    assert due == t.cards[id].dto.state.Cancelling?;
    assert t'.cards - {id} == t.cards - {id};
  }

  lemma StartApplies(t: Table, id: nat, now: int)
    requires id in t.cards && t.cards[id].dto.state.Pending?
    ensures CardApplied(t, id, Start, now) == Put(t, id, Applied(t.cards[id], Start, now).(lastTransition := None))
    ensures Applied(t.cards[id], Start, now).dto == t.cards[id].dto.(state := Active, startedAt := Some(now))
  {
  }

  /** The second half of a recheck ends the parent, whatever the first half saw. */
  lemma EndEnds(t: Table, id: nat, failed: nat, started: int, now: int)
    requires Live(t, id)
    ensures var c, (t', toast) := t.cards[id], RecheckEnd(t, id, failed, started, now);
            if c.dto.state.Cancelling? then t' == Finalized(t, id) && toast == None
            else
              && id in t'.cards && t' == Put(t, id, t'.cards[id]) && EndedAs(c, t'.cards[id], failed)
              && toast == if failed > 0 then None else Some((c.dto.name, c.dto.direction))
  {
    hide CardApplied, Applied, FailedReason;
    if failed > 0 || !t.cards[id].dto.state.Pending? {
      EndApplies(t, id, failed, now);
    } else {
      StartApplies(t, id, started);
      var t1 := CardApplied(t, id, Start, started);
      EndApplies(t1, id, 0, now);
      var t2 := CardApplied(t1, id, Finish, now);
      assert t2.cards == t.cards[id := t2.cards[id]];
    }
  }

  /** The first half only takes back the peer's route, if it leads to this very parent. */
  lemma GuardKeeps(t: Table, id: nat)
    ensures var (t', failed) := RecheckGuard(t, id);
            && t' == t.(pending := t'.pending)
            && (failed.Some? <==> Live(t, id) && AllEnded(t.cards[id].dto.children))
            && (failed.Some? ==> failed.value == FailedCount(t.cards[id].dto.children))
            && forall key ::
                 if key in t'.pending then key in t.pending && t'.pending[key] == t.pending[key]
                 else key in t.pending ==>
                   && t.pending[key] == id && id in t.cards && AllEnded(t.cards[id].dto.children)
                   && |t.cards[id].dto.peer| == 32 && key == BatchKey(t.cards[id].dto.peer)
  {
    hide BatchKey, FailedCount;
  }

  /**
   A recheck of a live parent ends it exactly when it has children and all have ended: by failure if any
   failed, else as done with full counts; a parent that was cancelling leaves the table. Only a parent
   that ends as done and stays is reported. No other card is touched.
   */
  lemma RecheckEndsParent(t: Table, id: nat, started: int, now: int)
    requires Live(t, id)
    ensures var c, (t', toast) := t.cards[id], Recheck(t, id, started, now);
            var ended, failed := AllEnded(c.dto.children), exists ch <- c.dto.children :: ch.state.Failed?;
            && t'.cards - {id} == t.cards - {id}
            && (!ended ==> t'.cards == t.cards)
            && (ended && c.dto.state.Cancelling? ==> id !in t'.cards)
            && (ended && !c.dto.state.Cancelling? ==>
                  && id in t'.cards && EndedAs(c, t'.cards[id], FailedCount(c.dto.children))
                  && t'.cards[id].dto.state == if failed then Failed else Done)
            && toast == if ended && !failed && !c.dto.state.Cancelling? then Some((c.dto.name, c.dto.direction)) else None
  {
    hide RecheckGuard, RecheckEnd, FailedCount;
    SomeFailed(t.cards[id].dto.children);
    GuardKeeps(t, id);
    var (t1, failed) := RecheckGuard(t, id);
    if failed.Some? {
      EndEnds(t1, id, failed.value, started, now);
    }
  }

  /** On a card that is missing or has ended it changes no card and reports nothing. */
  lemma RecheckSparesEnded(t: Table, id: nat, started: int, now: int)
    requires !Live(t, id)
    ensures Recheck(t, id, started, now).0.cards == t.cards && Recheck(t, id, started, now).1 == None
  {
    hide RecheckGuard, RecheckEnd;
    GuardKeeps(t, id);
    var (_, failed) := RecheckGuard(t, id);
    assert failed.None?;
  }

  /**
   The state is read in one region and the end applied in another. Two rechecks that both passed the look
   at the state before either applied its end both report the parent, though it ends once.
   */
  lemma OverlapReportsTwice(t: Table, id: nat, started: int, now: int, now': int)
    requires Live(t, id) && !t.cards[id].dto.state.Cancelling?
    requires AllEnded(t.cards[id].dto.children) && FailedCount(t.cards[id].dto.children) == 0
    ensures var (t1, first) := RecheckGuard(t, id);
            var (t2, second) := RecheckGuard(t1, id);
            && first == second == Some(0)
            && var (t3, toast1) := RecheckEnd(t2, id, 0, started, now);
            var (t4, toast2) := RecheckEnd(t3, id, 0, started, now');
            toast1.Some? && toast2 == toast1 && t4 == t3
  {
    hide RecheckGuard, FailedCount, Applied;
    GuardKeeps(t, id);
    GuardKeeps(RecheckGuard(t, id).0, id);
    var t2 := RecheckGuard(RecheckGuard(t, id).0, id).0;
    EndEnds(t2, id, 0, started, now);
  }

  /**
   What the second half reports, whatever has happened since the look: any card that is in the table and
   not cancelling. The report is of a parent that has just been done exactly if the card is still live.
   */
  lemma EndReportsIff(t: Table, id: nat, started: int, now: int)
    ensures var (t', toast) := RecheckEnd(t, id, 0, started, now);
            && (toast.Some? <==> id in t.cards && !t.cards[id].dto.state.Cancelling?)
            && (toast.Some? ==> id in t'.cards && (Live(t, id) <==> t'.cards[id].dto.state.Done? && !t.cards[id].dto.state.Done?))
  {
    hide CardApplied;
    if Live(t, id) {
      EndEnds(t, id, 0, started, now);
    } else {
      EndSparesEnded(t, id, 0, started, now);
    }
  }

  /** On a card that has ended or is missing the second half changes nothing. */
  lemma EndSparesEnded(t: Table, id: nat, failed: nat, started: int, now: int)
    requires !Live(t, id)
    ensures RecheckEnd(t, id, failed, started, now).0 == t
    ensures RecheckEnd(t, id, failed, started, now).1 ==
            if failed == 0 && id in t.cards then Some((t.cards[id].dto.name, t.cards[id].dto.direction)) else None
  {
    hide Applied, FailedReason;
  }

  /** A failure that comes between look and end is reported as done. */
  lemma FailureIsReportedDone(t: Table, id: nat, reason: Option<string>, started: int, now: int, now': int)
    requires Live(t, id) && !t.cards[id].dto.state.Cancelling?
    requires AllEnded(t.cards[id].dto.children) && FailedCount(t.cards[id].dto.children) == 0
    ensures var (t1, look) := RecheckGuard(t, id);
            var t2 := CardApplied(t1, id, Fail(reason), now);
            && look == Some(0) && id in t2.cards && t2.cards[id].dto.state.Failed?
            && RecheckEnd(t2, id, 0, started, now') == (t2, Some((t.cards[id].dto.name, t.cards[id].dto.direction)))
  {
    hide RecheckGuard, RecheckEnd, FailedCount;
    GuardKeeps(t, id);
    var t1 := RecheckGuard(t, id).0;
    var t2 := CardApplied(t1, id, Fail(reason), now);
    assert id in t2.cards && t2.cards[id].dto.state.Failed? && t2.cards[id].dto.name == t.cards[id].dto.name
           && t2.cards[id].dto.direction == t.cards[id].dto.direction;
    EndSparesEnded(t2, id, 0, started, now');
  }

  function AllPut(t: Table, id: nat, chs: seq<Child>): Table
    decreases |chs|
  {
    if chs == [] then t else AllPut(ChildPut(t, id, chs[0]), id, chs[1..])
  }

  lemma {:induction false} AllPutIs(t: Table, id: nat, chs: seq<Child>)
    requires id in t.cards
    ensures AllPut(t, id, chs) == Put(t, id, t.cards[id].(dto := UpsertedAll(t.cards[id].dto, chs)))
    decreases |chs|
  {
    hide Upserted;
    var c := t.cards[id];
    if chs == [] {
      assert t.cards[id := c] == t.cards;
    } else {
      var t1 := ChildPut(t, id, chs[0]);
      AllPutIs(t1, id, chs[1..]);
      var last := c.(dto := UpsertedAll(c.dto, chs));
      assert t1.cards[id := last] == t.cards[id := last];
    }
  }

  /** The state a row ends up with: the last upsert's, or its own if there was none. */
  function LastState(d: Dto, chs: seq<Child>, i: nat): CardState
    requires i < |UpsertedAll(d, chs).children|
  {
    if LastTo(d, chs, i).Some? then LastTo(d, chs, i).value.state else UpsertedAll(d, chs).children[i].state
  }

  /**
   Over any sequence of upserts: if each row's last one carried an end, the next recheck ends the live
   parent, out of the table if it was cancelling, as failed exactly if some row's last upsert carried a
   failure, else as done.
   */
  lemma LastUpsertsDecide(t: Table, id: nat, chs: seq<Child>, started: int, now: int)
    requires Live(t, id)
    requires var d := t.cards[id].dto; UpsertedAll(d, chs).children != []
    requires var d := t.cards[id].dto;
             forall i | 0 <= i < |UpsertedAll(d, chs).children| :: LastState(d, chs, i).Done? || LastState(d, chs, i).Failed?
    ensures var d := t.cards[id].dto;
            var t' := Recheck(AllPut(t, id, chs), id, started, now).0;
            if t.cards[id].dto.state.Cancelling? then id !in t'.cards
            else
              && id in t'.cards
              && (t'.cards[id].dto.state.Failed? <==>
                  exists i | 0 <= i < |UpsertedAll(d, chs).children| :: LastState(d, chs, i).Failed?)
              && (t'.cards[id].dto.state.Done? || t'.cards[id].dto.state.Failed?)
  {
    hide Recheck, UpsertedAll, LastTo;
    var d, t1 := t.cards[id].dto, AllPut(t, id, chs);
    AllPutIs(t, id, chs);
    UpsertsKeepState(d, chs);
    var cs := UpsertedAll(d, chs).children;
    forall i | 0 <= i < |cs| ensures cs[i].state == LastState(d, chs, i) {
      RowIsLast(d, chs, i);
    }
    assert AllEnded(cs);
    RecheckEndsParent(t1, id, started, now);
  }

  lemma {:induction false} UpsertsKeepState(d: Dto, chs: seq<Child>)
    ensures UpsertedAll(d, chs).state == d.state
    decreases |chs|
  {
    hide Slot;
    if chs != [] {
      UpsertsKeepState(Upserted(d, chs[0]), chs[1..]);
    }
  }

  // ----- How a push's source jobs find their card -----

  /** The parent a batch or a retry has registered for a peer. */
  function BatchParent(t: Table, peer: Fingerprint): Option<nat> {
    if BatchKey(peer) in t.pending then Some(t.pending[BatchKey(peer)])
    else if RetryKey(peer) in t.pending then Some(t.pending[RetryKey(peer)])
    else None
  }

  function Registered(t: Table, key: nat, id: nat): Table {
    t.(pending := t.pending[key := id])
  }

  /** `source_push_attach`: whether a started source job was taken by a waiting card. */
  function Attached(t: Table, job: nat, peer: Fingerprint, name: string, total: nat, now: int): (Table, bool) {
    var parent := BatchParent(t, peer);
    if parent.Some? && Live(t, parent.value) then
      var t1 := Registered(ChildPut(t, parent.value, Child(Some(job), name, total, 0, Active)), job, parent.value);
      (t1.(offers := t1.offers[parent.value := job]), true)
    else if SingleKey(peer) in t.pending then
      var id := t.pending[SingleKey(peer)];
      if Live(t, id) then
        var t1 := BoundPassive(t, job, id);
        (if t.cards[id].dto.state.Pending? then EventRouted(t1, job, Start, now) else t1, true)
      else (t, true)
    else (t, false)
  }

  /** The source bridge's answer to bytes of a job. */
  function ChunkRouted(t: Table, job: nat, bytes: nat, now: int): Table {
    if job in t.pending then
      var id := t.pending[job];
      if id !in t.cards then t else
      var row := FirstWhere(t.cards[id].dto.children, (c: Child) => c.jobId == Some(job));
      if row.None? then t
      else ChildPut(t, id, Child(Some(job), row.value.name, row.value.total, row.value.done + bytes, Active))
    else ChunkAdded(t, CardIdOf(t, job), bytes, now)
  }

  /** The card as it was but for its state, start time and bytes done. */
  ghost predicate SameTransfer(c: Card, c': Card) {
    && c'.engineId == c.engineId && c'.removed == c.removed
    && c'.dto == c.dto.(state := c'.dto.state, startedAt := c'.dto.startedAt, done := c'.dto.done)
  }

  /**
   A single file's push: the card is registered under the peer's single key while the batch and retry
   entries are absent or lead to ended cards. When the source job starts, no card is created and the
   waiting card keeps its total, children, bytes and engine id; a source job no batch holds is routed to it.
   */
  lemma SingleAttachKeepsCard(t: Table, id: nat, peer: Fingerprint, job: nat, name: string, total: nat, now: int)
    requires Live(t, id) && (BatchParent(t, peer).Some? ==> !Live(t, BatchParent(t, peer).value))
    ensures var (t', taken) := Attached(Registered(t, SingleKey(peer), id), job, peer, name, total, now);
            && taken && t'.cards.Keys == t.cards.Keys && t'.cards - {id} == t.cards - {id}
            && SameTransfer(t.cards[id], t'.cards[id]) && t'.cards[id].dto.done == t.cards[id].dto.done
            && t'.cards[id].dto.state == (if t.cards[id].dto.state.Pending? then Active else t.cards[id].dto.state)
            && (job >= SOURCE_BASE && job !in t.pending ==> RoutedTo(t', job, id))
  {
    hide PeerKey, Upserted;
    KeysApart(peer, BATCH, peer, SINGLE);
    KeysApart(peer, RETRY, peer, SINGLE);
    KeyRange(peer, SINGLE, job);
    var t0 := Registered(t, SingleKey(peer), id);
    assert BatchParent(t0, peer) == BatchParent(t, peer);
    if t.cards[id].dto.state.Pending? {
      StartApplies(BoundPassive(t0, job, id), id, now);
    }
  }

  ghost predicate RoutedTo(t: Table, job: nat, id: nat) {
    job !in t.pending && CardIdOf(t, job) == id
  }

  datatype Chunk = Chunk(bytes: nat, now: int)

  function Chunked(t: Table, job: nat, chunks: seq<Chunk>): Table
    decreases |chunks|
  {
    if chunks == [] then t else Chunked(ChunkRouted(t, job, chunks[0].bytes, chunks[0].now), job, chunks[1..])
  }

  function SumBytes(chunks: seq<Chunk>): nat {
    if chunks == [] then 0 else chunks[0].bytes + SumBytes(chunks[1..])
  }

  /** One chunk of a routed job changes nothing but the byte count of its card, if that is active. */
  lemma ChunkAdds(t: Table, job: nat, id: nat, chunk: Chunk)
    requires RoutedTo(t, job, id) && id in t.cards && t.cards[id].dto.state.Active?
    ensures var c := t.cards[id];
            ChunkRouted(t, job, chunk.bytes, chunk.now) == Put(t, id, c.(dto := c.dto.(done := c.dto.done + chunk.bytes)))
  {
  }

  /** Bytes of a job routed to an active card are added to that card, and nothing else changes. */
  lemma {:induction false} ChunksAddUp(t: Table, job: nat, id: nat, chunks: seq<Chunk>)
    requires RoutedTo(t, job, id) && id in t.cards && t.cards[id].dto.state.Active?
    ensures var c := t.cards[id];
            Chunked(t, job, chunks) == Put(t, id, c.(dto := c.dto.(done := c.dto.done + SumBytes(chunks))))
    decreases |chunks|
  {
    hide ChunkRouted;
    var c := t.cards[id];
    if chunks == [] {
      assert t.cards[id := c] == t.cards;
    } else {
      ChunkAdds(t, job, id, chunks[0]);
      var t' := ChunkRouted(t, job, chunks[0].bytes, chunks[0].now);
      ChunksAddUp(t', job, id, chunks[1..]);
      var last := c.(dto := c.dto.(done := c.dto.done + SumBytes(chunks)));
      assert t'.cards[id := last] == t.cards[id := last];
    }
  }

  /** From the registration on: after any chunks a card that was waiting holds exactly their bytes more. */
  lemma SinglePushCounts(t: Table, id: nat, peer: Fingerprint, job: nat, name: string, total: nat, now: int, chunks: seq<Chunk>)
    requires Live(t, id) && (t.cards[id].dto.state.Pending? || t.cards[id].dto.state.Active?)
    requires job >= SOURCE_BASE && job !in t.pending
    requires BatchParent(t, peer).Some? ==> !Live(t, BatchParent(t, peer).value)
    ensures var t' := Chunked(Attached(Registered(t, SingleKey(peer), id), job, peer, name, total, now).0, job, chunks);
            && t'.cards.Keys == t.cards.Keys && t'.cards - {id} == t.cards - {id}
            && SameTransfer(t.cards[id], t'.cards[id])
            && t'.cards[id].dto.done == t.cards[id].dto.done + SumBytes(chunks)
  {
    hide Attached, Chunked, Registered, BatchParent, SingleKey, ChunkRouted;
    SingleAttachKeepsCard(t, id, peer, job, name, total, now);
    ChunksAddUp(Attached(Registered(t, SingleKey(peer), id), job, peer, name, total, now).0, job, id, chunks);
  }

  /** A live batch parent takes the job as a child instead; its bytes then go to that child's row. */
  lemma BatchAttachAddsRow(t: Table, peer: Fingerprint, job: nat, name: string, total: nat, now: int)
    requires BatchParent(t, peer).Some? && Live(t, BatchParent(t, peer).value)
    ensures var id, (t', taken) := BatchParent(t, peer).value, Attached(t, job, peer, name, total, now);
            && taken && t'.cards.Keys == t.cards.Keys && t'.cards - {id} == t.cards - {id}
            && t'.pending == t.pending[job := id] && t'.offers == t.offers[id := job] && t'.engineToCard == t.engineToCard
            && t'.cards[id].dto.state == t.cards[id].dto.state
            && exists i | 0 <= i < |t'.cards[id].dto.children| :: t'.cards[id].dto.children[i].jobId == Some(job)
  {
    var id := BatchParent(t, peer).value;
    var cs, ch := t.cards[id].dto.children, Child(Some(job), name, total, 0, Active);
    var cs' := Upserted(t.cards[id].dto, ch).children;
    assert cs'[Slot(cs, ch)].jobId == Some(job);
  }

  /**
   Without a live batch parent and without a single registration a job is nobody's; a registered card
   that has ended swallows it.
   */
  lemma AttachElsewhere(t: Table, peer: Fingerprint, job: nat, name: string, total: nat, now: int)
    requires BatchParent(t, peer).Some? ==> !Live(t, BatchParent(t, peer).value)
    requires SingleKey(peer) in t.pending ==> !Live(t, t.pending[SingleKey(peer)])
    ensures Attached(t, job, peer, name, total, now) == (t, SingleKey(peer) in t.pending)
  {
  }

  /** Bytes of a job that belongs to a batch go to the job's row, and the parent's count rises with it. */
  lemma BatchChunkGoesToRow(t: Table, job: nat, bytes: nat, now: int, i: nat)
    requires job in t.pending && t.pending[job] in t.cards
    requires FirstOfJob(t.cards[t.pending[job]].dto.children, job, i)
    ensures var id, t' := t.pending[job], ChunkRouted(t, job, bytes, now);
            var cs := t.cards[id].dto.children;
            && t' == t.(cards := t'.cards) && id in t'.cards && t'.cards - {id} == t.cards - {id}
            && var d := t'.cards[id].dto;
            && d.children == cs[i := cs[i].(done := cs[i].done + bytes, state := Active)]
            && d.done == SatAdd(SatSub(t.cards[id].dto.done, cs[i].done), cs[i].done + bytes)
            && d.total == t.cards[id].dto.total && d.state == t.cards[id].dto.state
  {
    hide Upserted, Goes;
    var id := t.pending[job];
    var cs := t.cards[id].dto.children;
    FirstWhereIs(cs, (c: Child) => c.jobId == Some(job), i);
    var ch := Child(Some(job), cs[i].name, cs[i].total, cs[i].done + bytes, Active);
    assert ChunkRouted(t, job, bytes, now) == ChildPut(t, id, ch);
    UpsertPutsRow(t.cards[id].dto, ch);
    assert FindJob(cs, job) == i;
    assert Upserted(t.cards[id].dto, ch).children == cs[i := ch];
  }

  // ----- The smaller operations, told by the fields -----

  /** Binding a job routes it, and marks only the card it is bound to. */
  lemma BoundRoutes(t: Table, job: nat, id: nat)
    ensures var t' := Bound(t, job, id);
            && CardIdOf(t', job) == id && (forall j | j != job :: CardIdOf(t', j) == CardIdOf(t, j))
            && t'.cards.Keys == t.cards.Keys && t'.cards - {id} == t.cards - {id}
            && t' == t.(cards := t'.cards, engineToCard := t'.engineToCard)
            && (id in t.cards ==>
                  && t'.cards[id].engineId == Some(job) && t'.cards[id].dto.partsId == Some(job)
                  && t'.cards[id] == t.cards[id].(engineId := Some(job),
                                               dto := t.cards[id].dto.(partsId := t'.cards[id].dto.partsId)))
    ensures BoundPassive(t, job, id) == Bound(t, job, id).(cards := t.cards)
    ensures job !in t.engineToCard ==> CardIdOf(t, job) == job
  {
  }

  /** Clearing takes exactly the ended rows. */
  lemma ClearTakesEnded(t: Table, id: nat)
    ensures id in TerminalCleared(t).cards <==> Live(t, id)
    ensures Live(t, id) ==> TerminalCleared(t).cards[id] == t.cards[id]
  {
  }

  /** A new card stands under the id drawn, pending nothing, bound to nothing. */
  lemma CreatedStands(t: Table, dto: Dto)
    ensures var t' := Created(t, dto);
            && t.nextId in t'.cards && t'.cards[t.nextId] == Card(dto, None, false, None, None)
            && t'.cards - {t.nextId} == t.cards - {t.nextId}
            && t' == t.(cards := t'.cards, nextId := t'.nextId)
            && (t.nextId + 1 < U64 ==> t'.nextId == t.nextId + 1) && (t.nextId + 1 == U64 ==> t'.nextId == 0)
  {
  }

  /** Speed is noted on an active card and leaves its counts alone; on any other card nothing changes. */
  lemma SpeedIsNoted(t: Table, id: nat, bps: nat, remoteDone: nat, health: Option<Health>, now: int)
    requires id in t.cards
    ensures var c, t' := t.cards[id], SpeedNoted(t, id, bps, remoteDone, health, now);
            && id in t'.cards && t' == Put(t, id, t'.cards[id])
            && t'.cards[id] == if c.dto.state.Active? then
                 c.(dto := c.dto.(speed := bps, remoteDone := remoteDone,
                                  health := if health.Some? then health else c.dto.health))
               else c
  {
  }

  function ReadDigits(s: string): nat {
    if s == "" then 0 else ReadDigits(s[..|s| - 1]) * 10 + if '0' <= s[|s| - 1] <= '9' then s[|s| - 1] as int - '0' as int else 0
  }

  /** The count in a parent's reason reads back. */
  lemma {:induction false} ReasonCounts(n: nat)
    ensures ReadDigits(Digits(n)) == n && |Digits(n)| > 0
  {
    if n < 10 {
      assert Digits(n)[..0] == "";
    } else {
      ReasonCounts(n / 10);
      var s := Digits(n);
      assert s[..|s| - 1] == Digits(n / 10);
    }
  }

  // ----- Deleting a card -----

  /** `destroy_transfer` on the table, and whether it is accepted. */
  function Destroyed(t: Table, id: nat, now: int): (Table, bool) {
    if id !in t.cards then (t, false)
    else if Terminal(t.cards[id].dto.state) then (Finalized(t, id), true)
    else
      var t' := CardApplied(t, id, CancelRequest, now);
      (t', id in t'.cards && t'.cards[id].dto.state.Cancelling?)
  }

  /** A deletion is refused only for a missing card: an ended card is gone, a live one is cancelling. */
  lemma DestroyAlwaysTakes(t: Table, id: nat, now: int)
    ensures var (t', ok) := Destroyed(t, id, now);
            && ok == (id in t.cards)
            && t'.cards - {id} == t.cards - {id}
            && (id in t.cards && !Live(t, id) ==> id !in t'.cards)
            && (Live(t, id) ==> id in t'.cards && t'.cards[id].dto.state.Cancelling?)
            && (id !in t.cards ==> t' == t)
  {
  }

  /** The watchdog, five seconds on. */
  function WatchdogFired(t: Table, id: nat): Table {
    if id in t.cards && t.cards[id].dto.state.Cancelling? then Finalized(t, id) else t
  }

  /** It takes a card exactly if that is still cancelling, and no other. */
  lemma WatchdogTakesIff(t: Table, id: nat, other: nat)
    ensures var t' := WatchdogFired(t, id);
            && t' == t.(cards := t'.cards)
            && (other in t'.cards <==> other in t.cards && !(other == id && t.cards[id].dto.state.Cancelling?))
            && (other in t'.cards ==> t'.cards[other] == t.cards[other])
  {
  }

  /** A card marked as removed keeps everything else. */
  lemma MarkKeepsRest(t: Table, id: nat)
    ensures var t' := MarkedRemoved(t, id);
            && t' == t.(cards := t'.cards) && t'.cards.Keys == t.cards.Keys && t'.cards - {id} == t.cards - {id}
            && (id in t.cards ==> t'.cards[id].removed && t'.cards[id].(removed := t.cards[id].removed) == t.cards[id])
  {
  }

  // ----- Start-up -----

  /** The id counter after the rows read from disk: past every card id, blind to source ids. */
  function Lifted(next: nat, ids: seq<nat>): nat
    decreases |ids|
  {
    if ids == [] then next else Lifted(if ids[0] < SOURCE_BASE then Max(next, ids[0] + 1) else next, ids[1..])
  }

  function FirstId(ids: seq<nat>): nat {
    Lifted(CARD_ID_BASE, ids)
  }

  lemma {:induction false} LiftedClears(next: nat, ids: seq<nat>)
    requires next <= SOURCE_BASE
    ensures next <= Lifted(next, ids) <= SOURCE_BASE
    ensures forall id <- ids :: id < Lifted(next, ids) || id >= SOURCE_BASE
    ensures Lifted(next, ids) == next || Lifted(next, ids) - 1 in ids
    decreases |ids|
  {
    if ids != [] {
      LiftedClears(if ids[0] < SOURCE_BASE then Max(next, ids[0] + 1) else next, ids[1..]);
      assert ids == [ids[0]] + ids[1..];
    }
  }

  datatype Row = Row(id: nat, card: Card)

  function Ids(rows: seq<Row>): seq<nat> {
    if rows == [] then [] else [rows[0].id] + Ids(rows[1..])
  }

  /** Rows collected into a table; of two with one id the later stays. */
  function Collected(rows: seq<Row>): map<nat, Card> {
    if rows == [] then map[] else Collected(rows[..|rows| - 1])[rows[|rows| - 1].id := rows[|rows| - 1].card]
  }

  function Loaded(rows: seq<Row>): Table {
    Table(Collected(rows), map[], map[], map[], FirstId(Ids(rows)))
  }

  /** The table itself. */
  class AppState {
    var transfers: map<nat, Card>
    var engineToCard: map<nat, nat>
    var pendingChildren: map<nat, nat>
    var batchOfferJobs: map<nat, nat>
    var nextCardId: nat

    ghost function View(): Table
      reads this
    {
      Table(transfers, engineToCard, pendingChildren, batchOfferJobs, nextCardId)
    }

    constructor (rows: seq<Row>)
      ensures View() == Loaded(rows)
    {
      var cards: map<nat, Card> := map[];
      var next := CARD_ID_BASE;
      for i := 0 to |rows|
        invariant cards == Collected(rows[..i])
        invariant Lifted(next, Ids(rows[i..])) == FirstId(Ids(rows))
      {
        assert rows[..i + 1][..i] == rows[..i] && rows[i..][1..] == rows[i + 1..];
        cards := cards[rows[i].id := rows[i].card];
        if rows[i].id < SOURCE_BASE {
          next := Max(next, rows[i].id + 1);
        }
      }
      assert rows[..|rows|] == rows;
      transfers, nextCardId := cards, next;
      engineToCard, pendingChildren, batchOfferJobs := map[], map[], map[];
    }

    method FinalizeDestroy(id: nat)
      modifies this`transfers
      ensures View() == Finalized(old(View()), id)
    {
      transfers := transfers - {id};
    }

    method CardApply(id: nat, ev: Event, now: int)
      modifies this`transfers
      ensures View() == CardApplied(old(View()), id, ev, now)
    {
      if id !in transfers {
        return;
      }
      var card := transfers[id];
      var wasCancelling := card.dto.state.Cancelling?;
      if !Accepts(card, ev) {
        return;
      }
      card := Applied(card, ev, now);
      var transition := card.lastTransition;
      card := card.(lastTransition := None);
      transfers := transfers[id := card];
      if wasCancelling && transition.Some? && Terminal(transition.value.1) {
        FinalizeDestroy(id);
      }
    }

    method EngineEvent(job: nat, ev: Event, now: int)
      modifies this`transfers
      ensures View() == EventRouted(old(View()), job, ev, now)
    {
      var id := if job in engineToCard then engineToCard[job] else job;
      CardApply(id, ev, now);
    }

    method CardCreate(dto: Dto) returns (id: nat)
      modifies this`transfers, this`nextCardId
      ensures id == old(nextCardId) && View() == Created(old(View()), dto)
    {
      id := nextCardId;
      nextCardId := (nextCardId + 1) % U64;
      transfers := transfers[id := NewCard(dto)];
    }

    method BindEngineId(job: nat, id: nat)
      modifies this`transfers, this`engineToCard
      ensures View() == Bound(old(View()), job, id)
    {
      engineToCard := engineToCard[job := id];
      if id in transfers {
        var card := transfers[id];
        transfers := transfers[id := card.(engineId := Some(job), dto := card.dto.(partsId := Some(job)))];
      }
    }

    method BindEngineIdPassive(job: nat, id: nat)
      modifies this`engineToCard
      ensures View() == BoundPassive(old(View()), job, id)
    {
      engineToCard := engineToCard[job := id];
    }

    method CardMarkRemoved(id: nat) returns (found: bool)
      modifies this`transfers
      ensures found == (id in old(transfers)) && View() == MarkedRemoved(old(View()), id)
    {
      if id !in transfers {
        return false;
      }
      transfers := transfers[id := transfers[id].(removed := true)];
      found := true;
    }

    method CardRemoveTerminal() returns (n: nat)
      modifies this`transfers
      ensures View() == TerminalCleared(old(View())) && n == |old(transfers)| - |transfers|
    {
      var kept := map id | id in transfers && !Terminal(transfers[id].dto.state) :: transfers[id];
      assert kept == TerminalCleared(View()).cards;
      SmallerDomain(kept, transfers);
      n := |transfers| - |kept|;
      transfers := kept;
    }

    method SourceChunkAdd(id: nat, bytes: nat, now: int)
      modifies this`transfers
      ensures View() == ChunkAdded(old(View()), id, bytes, now)
    {
      if id !in transfers {
        return;
      }
      var card := transfers[id];
      var d := card.dto;
      card := Applied(card, Progress(d.done + bytes, d.total, d.speed, d.remoteDone, None), now);
      transfers := transfers[id := card];
    }

    method SourceSpeed(id: nat, bps: nat, remoteDone: nat, health: Option<Health>, now: int)
      modifies this`transfers
      ensures View() == SpeedNoted(old(View()), id, bps, remoteDone, health, now)
    {
      if id !in transfers {
        return;
      }
      var card := transfers[id];
      card := Applied(card, Progress(card.dto.done, card.dto.total, bps, remoteDone, health), now);
      transfers := transfers[id := card];
    }

    method ChildUpsert(parent: nat, child: Child)
      modifies this`transfers
      ensures View() == ChildPut(old(View()), parent, child)
    {
      if parent !in transfers {
        return;
      }
      var d := transfers[parent].dto;
      var slot := Slot(d.children, child);
      if slot < |d.children| {
        var oldDone := d.children[slot].done;
        var newDone := Max(child.done, oldDone);
        d := d.(children := d.children[slot := child.(done := newDone)], done := SatAdd(SatSub(d.done, oldDone), newDone));
      } else {
        d := d.(total := SatAdd(d.total, child.total), done := SatAdd(d.done, child.done));
        d := d.(children := d.children + [child]);
      }
      transfers := transfers[parent := transfers[parent].(dto := d)];
    }

    method DestroyTransfer(id: nat, now: int) returns (ok: bool)
      modifies this`transfers
      ensures (View(), ok) == Destroyed(old(View()), id, now)
    {
      hide CardApplied;
      if id !in transfers {
        return false;
      }
      if Terminal(transfers[id].dto.state) {
        FinalizeDestroy(id);
        return true;
      }
      CardApply(id, CancelRequest, now);
      ok := id in transfers && transfers[id].dto.state.Cancelling?;
    }

    method FireWatchdog(id: nat)
      modifies this`transfers
      ensures View() == WatchdogFired(old(View()), id)
    {
      if id in transfers && transfers[id].dto.state.Cancelling? {
        FinalizeDestroy(id);
      }
    }

    method PendingChildrenRemove(key: nat, parent: nat)
      modifies this`pendingChildren
      ensures View() == Unpended(old(View()), key, parent)
    {
      if key in pendingChildren && pendingChildren[key] == parent {
        pendingChildren := pendingChildren - {key};
      }
    }

    method CountFailed(cs: seq<Child>) returns (all: bool, failed: nat)
      ensures all == (forall c <- cs :: Ended(c)) && failed == FailedCount(cs)
    {
      all, failed := true, 0;
      for i := |cs| downto 0
        invariant all == (forall c <- cs[i..] :: Ended(c)) && failed == FailedCount(cs[i..])
      {
        assert cs[i..] == [cs[i]] + cs[i + 1..];
        all := all && Ended(cs[i]);
        failed := failed + if cs[i].state.Failed? then 1 else 0;
      }
      assert cs[0..] == cs;
    }

    /** The recheck up to its look at the parent's state. */
    method LookAtParent(parent: nat) returns (failed: Option<nat>)
      modifies this`pendingChildren
      ensures (View(), failed) == RecheckGuard(old(View()), parent)
    {
      hide FailedCount, BatchKey;
      if parent !in transfers {
        return None;
      }
      var all, count := CountFailed(transfers[parent].dto.children);
      if |transfers[parent].dto.children| == 0 || !all {
        return None;
      }
      var peer := transfers[parent].dto.peer;
      if |peer| == 32 {
        PendingChildrenRemove(BatchKey(peer), parent);
      }
      failed := if Terminal(transfers[parent].dto.state) then None else Some(count);
    }

    /** What it does after a look that found the parent live. */
    method EndParent(parent: nat, failed: nat, started: int, now: int) returns (toast: Toast)
      modifies this`transfers
      ensures (View(), toast) == RecheckEnd(old(View()), parent, failed, started, now)
    {
      hide CardApplied, FailedReason;
      if failed > 0 {
        CardApply(parent, Fail(Some(FailedReason(failed))), now);
        return None;
      }
      if parent in transfers && transfers[parent].dto.state.Pending? {
        CardApply(parent, Start, started);
      }
      CardApply(parent, Finish, now);
      toast := if parent in transfers then Some((transfers[parent].dto.name, transfers[parent].dto.direction)) else None;
    }

    /** Both, when no other task comes between them. */
    method RecheckParentTerminal(parent: nat, started: int, now: int) returns (toast: Toast)
      modifies this`transfers, this`pendingChildren
      ensures (View(), toast) == Recheck(old(View()), parent, started, now)
    {
      hide RecheckGuard, RecheckEnd;
      var failed := LookAtParent(parent);
      if failed.None? {
        return None;
      }
      toast := EndParent(parent, failed.value, started, now);
    }

    method SourcePushAttach(job: nat, peer: Fingerprint, name: string, total: nat, now: int) returns (taken: bool)
      modifies this
      ensures (View(), taken) == Attached(old(View()), job, peer, name, total, now)
    {
      hide CardApplied, Upserted, PeerKey;
      var parent: Option<nat> := None;
      if BatchKey(peer) in pendingChildren {
        parent := Some(pendingChildren[BatchKey(peer)]);
      }
      if parent.None? && RetryKey(peer) in pendingChildren {
        parent := Some(pendingChildren[RetryKey(peer)]);
      }
      if parent.Some? && parent.value in transfers && !Terminal(transfers[parent.value].dto.state) {
        ChildUpsert(parent.value, Child(Some(job), name, total, 0, Active));
        pendingChildren := pendingChildren[job := parent.value];
        batchOfferJobs := batchOfferJobs[parent.value := job];
        return true;
      }
      if SingleKey(peer) !in pendingChildren {
        return false;
      }
      var id := pendingChildren[SingleKey(peer)];
      if id in transfers && !Terminal(transfers[id].dto.state) {
        var waiting := transfers[id].dto.state.Pending?;
        BindEngineIdPassive(job, id);
        if waiting {
          EngineEvent(job, Start, now);
        }
      }
      taken := true;
    }

    method SourceChunkDone(job: nat, bytes: nat, now: int)
      modifies this`transfers
      ensures View() == ChunkRouted(old(View()), job, bytes, now)
    {
      hide Upserted, Applied;
      if job in pendingChildren {
        var parent := pendingChildren[job];
        if parent in transfers {
          var row := FirstWhere(transfers[parent].dto.children, (c: Child) => c.jobId == Some(job));
          if row.Some? {
            ChildUpsert(parent, Child(Some(job), row.value.name, row.value.total, row.value.done + bytes, Active));
          }
        }
        return;
      }
      SourceChunkAdd(if job in engineToCard then engineToCard[job] else job, bytes, now);
    }
  }

  lemma SmallerDomain(small: map<nat, Card>, big: map<nat, Card>)
    requires small.Keys <= big.Keys
    ensures |small| <= |big|
  {
    SmallerSet(small.Keys, big.Keys);
    assert |small| == |small.Keys| && |big| == |big.Keys|;
  }
}
