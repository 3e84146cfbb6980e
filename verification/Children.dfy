/**
 Children of a batch card: how `child_upsert` finds the row to replace, and why the parent's totals stay
 the sums over its children.
 */
module Children {
  import opened Prelude
  import opened TransferCards

  function FindName(cs: seq<Child>, name: string): (i: nat)
    ensures i <= |cs|
    ensures i < |cs| ==> cs[i].name == name
    ensures forall j | 0 <= j < i :: cs[j].name != name
  {
    if cs == [] then 0 else if cs[0].name == name then 0 else 1 + FindName(cs[1..], name)
  }

  function FindJob(cs: seq<Child>, job: nat): (i: nat)
    ensures i <= |cs|
    ensures i < |cs| ==> cs[i].jobId == Some(job)
    ensures forall j | 0 <= j < i :: cs[j].jobId != Some(job)
  {
    if cs == [] then 0 else if cs[0].jobId == Some(job) then 0 else 1 + FindJob(cs[1..], job)
  }

  function FindBlank(cs: seq<Child>, name: string): (i: nat)
    ensures i <= |cs|
    ensures i < |cs| ==> cs[i].jobId == None && cs[i].name == name
    ensures forall j | 0 <= j < i :: !(cs[j].jobId == None && cs[j].name == name)
  {
    if cs == [] then 0 else if cs[0].jobId == None && cs[0].name == name then 0 else 1 + FindBlank(cs[1..], name)
  }

  /** The row an incoming child replaces, the length standing for a new row. */
  function Slot(cs: seq<Child>, ch: Child): (i: nat)
    ensures i <= |cs|
  {
    if ch.jobId.None? then FindName(cs, ch.name) else
    var i := FindJob(cs, ch.jobId.value);
    if i < |cs| then i else FindBlank(cs, ch.name)
  }

  /** `child_upsert` on the parent's record. */
  function Upserted(d: Dto, ch: Child): Dto {
    var i := Slot(d.children, ch);
    if i < |d.children| then
      var before := d.children[i].done;
      var after := Max(ch.done, before);
      d.(children := d.children[i := ch.(done := after)], done := SatAdd(SatSub(d.done, before), after))
    else
      d.(children := d.children + [ch], total := SatAdd(d.total, ch.total), done := SatAdd(d.done, ch.done))
  }

  // ----- What an upsert does, told by the rows -----

  /**
   Where a child goes: the first row of its engine job; else, for a child with a job, the first nameless-job
   row of its name; for a child without one, the first row of its name; else behind all rows.
   */
  ghost predicate Goes(cs: seq<Child>, ch: Child, i: nat) {
    if ch.jobId.Some? then
      if exists k | 0 <= k < |cs| :: cs[k].jobId == ch.jobId then
        i < |cs| && cs[i].jobId == ch.jobId && forall k | 0 <= k < i :: cs[k].jobId != ch.jobId
      else if exists k | 0 <= k < |cs| :: cs[k].jobId.None? && cs[k].name == ch.name then
        i < |cs| && cs[i].jobId.None? && cs[i].name == ch.name &&
        forall k | 0 <= k < i :: !(cs[k].jobId.None? && cs[k].name == ch.name)
      else i == |cs|
    else if exists k | 0 <= k < |cs| :: cs[k].name == ch.name then
      i < |cs| && cs[i].name == ch.name && forall k | 0 <= k < i :: cs[k].name != ch.name
    else i == |cs|
  }

  /** The rows after a child has gone to place `i`: the incoming child, with no less done than the row had. */
  ghost predicate RowPut(cs: seq<Child>, cs': seq<Child>, ch: Child, i: nat) {
    && i <= |cs| && |cs'| == Max(|cs|, i + 1)
    && cs'[i].jobId == ch.jobId && cs'[i].name == ch.name && cs'[i].total == ch.total && cs'[i].state == ch.state
    && cs'[i].done == (if i < |cs| && cs[i].done > ch.done then cs[i].done else ch.done)
    && forall k | 0 <= k < |cs| && k != i :: cs'[k] == cs[k]
  }

  /**
   An upsert puts the whole incoming child in its place, all other rows stay, and of the parent's own fields
   only the two counts change: by what the row gains, and for a new row by its total.
   */
  lemma UpsertPutsRow(d: Dto, ch: Child)
    ensures var i, d' := Slot(d.children, ch), Upserted(d, ch);
            && Goes(d.children, ch, i)
            && RowPut(d.children, d'.children, ch, i)
            && d' == d.(children := d'.children, done := d'.done, total := d'.total)
            && d'.total == (if i < |d.children| then d.total else SatAdd(d.total, ch.total))
            && d'.done == if i < |d.children| then SatAdd(SatSub(d.done, d.children[i].done), d'.children[i].done)
                          else SatAdd(d.done, ch.done)
  {
  }

  /** The place is unique. */
  lemma GoesOnce(cs: seq<Child>, ch: Child, i: nat, j: nat)
    requires Goes(cs, ch, i) && Goes(cs, ch, j)
    ensures i == j
  {
  }

  // ----- Sums -----

  function SumDone(cs: seq<Child>): nat {
    if cs == [] then 0 else cs[0].done + SumDone(cs[1..])
  }

  function Sum(ns: seq<nat>): nat {
    if ns == [] then 0 else ns[0] + Sum(ns[1..])
  }

  lemma {:induction false} SumDoneSnoc(cs: seq<Child>, ch: Child)
    ensures SumDone(cs + [ch]) == SumDone(cs) + ch.done
  {
    if cs != [] {
      SumDoneSnoc(cs[1..], ch);
      assert (cs + [ch])[1..] == cs[1..] + [ch];
    }
  }

  lemma {:induction false} SumSnoc(ns: seq<nat>, n: nat)
    ensures Sum(ns + [n]) == Sum(ns) + n
  {
    if ns != [] {
      SumSnoc(ns[1..], n);
      assert (ns + [n])[1..] == ns[1..] + [n];
    }
  }

  lemma {:induction false} SumDoneReplace(cs: seq<Child>, i: nat, ch: Child)
    requires i < |cs|
    ensures SumDone(cs[i := ch]) == SumDone(cs) - cs[i].done + ch.done && SumDone(cs) >= cs[i].done
  {
    if i == 0 {
      assert cs[0 := ch][1..] == cs[1..];
    } else {
      SumDoneReplace(cs[1..], i - 1, ch);
      assert cs[i := ch][1..] == cs[1..][i - 1 := ch];
    }
  }

  /** The totals with which the children's rows were first added, row by row. */
  function FirstTotals(firsts: seq<nat>, d: Dto, ch: Child): seq<nat> {
    if Slot(d.children, ch) < |d.children| then firsts else firsts + [ch.total]
  }

  /** The parent's counts are the children's. */
  ghost predicate Balanced(d: Dto, firsts: seq<nat>) {
    |firsts| == |d.children| && d.done == SumDone(d.children) && d.total == Sum(firsts)
  }

  /** Sums that 64 bits hold. */
  ghost predicate Fits(d: Dto, firsts: seq<nat>) {
    SumDone(d.children) < U64 && Sum(firsts) < U64
  }

  /**
   One upsert keeps the books exactly when the new sums still fit 64 bits; the subtraction never
   saturates, rows are never lost or moved, and no row's `done` falls.
   */
  lemma UpsertBalances(d: Dto, firsts: seq<nat>, ch: Child)
    requires Balanced(d, firsts) && Fits(d, firsts)
    ensures Balanced(Upserted(d, ch), FirstTotals(firsts, d, ch)) <==> Fits(Upserted(d, ch), FirstTotals(firsts, d, ch))
    ensures Slot(d.children, ch) < |d.children| ==> d.children[Slot(d.children, ch)].done <= d.done
    ensures Onwards(d.children, Upserted(d, ch).children)
  {
    var i := Slot(d.children, ch);
    if i < |d.children| {
      SumDoneReplace(d.children, i, ch.(done := Max(ch.done, d.children[i].done)));
    } else {
      SumDoneSnoc(d.children, ch);
      SumSnoc(firsts, ch.total);
    }
  }

  /** Rows keep their places and their `done` does not fall. */
  ghost predicate Onwards(cs: seq<Child>, cs': seq<Child>) {
    |cs| <= |cs'| && forall i | 0 <= i < |cs| :: cs[i].done <= cs'[i].done
  }

  // ----- What the batch handlers do to a parent -----

  /** One lock region on the parent's card. */
  datatype Op =
    | Upsert(child: Child)
    | Speed(bps: nat, remoteDone: nat, health: Option<Health>)
    | Apply(event: Event)
    | NoteReason(reason: string)
    | MarkInstant

  /** Everything a batch handler may do before the parent finishes. */
  predicate BeforeFinish(op: Op) {
    op.Apply? ==> !op.event.Finish? && !op.event.Progress?
  }

  /** `source_speed`: a progress event that repeats the counts. */
  function SpeedEvent(c: Card, bps: nat, remoteDone: nat, health: Option<Health>): Event {
    Progress(c.dto.done, c.dto.total, bps, remoteDone, health)
  }

  function Did(c: Card, op: Op, now: int): Card {
    match op
    case Upsert(ch) => c.(dto := Upserted(c.dto, ch))
    case Speed(bps, remoteDone, health) => Applied(c, SpeedEvent(c, bps, remoteDone, health), now)
    case Apply(ev) => Applied(c, ev, now)
    case NoteReason(reason) => c.(dto := c.dto.(failReason := Some(reason)), lastTransition := None)
    case MarkInstant => c.(dto := c.dto.(instant := true), lastTransition := None)
  }

  datatype Books = Books(card: Card, firsts: seq<nat>)

  function Booked(b: Books, op: Op, now: int): Books {
    Books(Did(b.card, op, now), if op.Upsert? then FirstTotals(b.firsts, b.card.dto, op.child) else b.firsts)
  }

  datatype TimedOp = TimedOp(op: Op, now: int)

  function BookedAll(b: Books, ops: seq<TimedOp>): Books
    decreases |ops|
  {
    if ops == [] then b else BookedAll(Booked(b, ops[0].op, ops[0].now), ops[1..])
  }

  /** Every sum along the way fits 64 bits. */
  ghost predicate FitsAlong(b: Books, ops: seq<TimedOp>)
    decreases |ops|
  {
    Fits(b.card.dto, b.firsts) && (ops == [] || FitsAlong(Booked(b, ops[0].op, ops[0].now), ops[1..]))
  }

  /** Any one region but the parent's Finish keeps the books. */
  lemma BookedBalances(b: Books, o: TimedOp)
    requires Balanced(b.card.dto, b.firsts) && Fits(b.card.dto, b.firsts) && BeforeFinish(o.op)
    requires var b' := Booked(b, o.op, o.now); Fits(b'.card.dto, b'.firsts)
    ensures var b' := Booked(b, o.op, o.now);
            Balanced(b'.card.dto, b'.firsts) && Onwards(b.card.dto.children, b'.card.dto.children)
  {
    hide Upserted, FirstTotals, SumDone, Sum;
    if o.op.Upsert? {
      UpsertBalances(b.card.dto, b.firsts, o.op.child);
    } else {
      var d, d' := b.card.dto, Booked(b, o.op, o.now).card.dto;
      assert d'.children == d.children && d'.done == d.done && d'.total == d.total;
    }
  }

  /**
   Through any interleaving of the lock regions of all batch handlers, with whatever values they carry,
   up to the parent's first Finish: `done` is the sum of the children's, `total` the sum of their first
   totals, and no child's `done` ever falls.
   */
  lemma {:induction false} BooksBalance(b: Books, ops: seq<TimedOp>)
    requires Balanced(b.card.dto, b.firsts) && FitsAlong(b, ops)
    requires forall o <- ops :: BeforeFinish(o.op)
    ensures Balanced(BookedAll(b, ops).card.dto, BookedAll(b, ops).firsts)
    ensures Onwards(b.card.dto.children, BookedAll(b, ops).card.dto.children)
    decreases |ops|
  {
    hide Booked, Balanced, Fits;
    if ops != [] {
      assert ops[0] in ops;
      var next := Booked(b, ops[0].op, ops[0].now);
      assert FitsAlong(next, ops[1..]);
      BookedBalances(b, ops[0]);
      BooksBalance(next, ops[1..]);
    }
  }

  // ----- The handlers themselves -----

  datatype PullEvent =
    | PullStarted(total: nat)
    | PullResumed(already: nat)
    | PullChunk(bytes: nat)
    | PullSpeed(bps: nat)
    | PullInstant(total: nat)
    | PullDone
    | PullFailed(reason: string)

  /** First row satisfying a test, if any. */
  function FirstWhere(cs: seq<Child>, p: Child -> bool): Option<Child> {
    if cs == [] then None else if p(cs[0]) then Some(cs[0]) else FirstWhere(cs[1..], p)
  }

  function Plain(name: string, total: nat, done: nat, state: CardState): Child {
    Child(None, name, total, done, state)
  }

  /** `handle_batch_pull_event`: the regions it runs, given the rows it read. */
  function PullOps(read: seq<Child>, name: string, ev: PullEvent): seq<Op> {
    match ev
    case PullStarted(total) => [Apply(Start), Upsert(Plain(name, total, 0, Active))]
    case PullResumed(already) => [Apply(Start), Upsert(Plain(name, 0, already, Active))]
    case PullChunk(bytes) =>
      var c := FirstWhere(read, (c: Child) => c.name == name && c.jobId.None?);
      if c.None? then [] else [Upsert(Plain(c.value.name, c.value.total, c.value.done + bytes, Active))]
    case PullSpeed(bps) => [Speed(bps, 0, None)]
    case PullInstant(total) => [Apply(Start), MarkInstant, Upsert(Plain(name, total, total, Done))]
    case PullDone =>
      var c := FirstWhere(read, (c: Child) => c.name == name && c.state.Active?);
      var total := if c.None? then 0 else c.value.total;
      [Upsert(Plain(name, total, total, Done))]
    case PullFailed(reason) => [Upsert(Plain(name, 0, 0, Failed)), NoteReason(reason)]
  }

  datatype PushEvent = PushStarted(name: string, total: nat) | PushDone | PushFailed | PushOther

  /** `handle_push_progress_event_mode` with `batch`, but for the recheck at its end. */
  function PushOps(read: seq<Child>, ev: PushEvent): seq<Op> {
    match ev
    case PushStarted(name, total) => [Upsert(Plain(name, total, 0, Active)), Apply(Start)]
    case PushOther => []
    case _ =>
      var c := FirstWhere(read, (c: Child) => c.state.Active? && c.jobId.None?);
      if c.None? then []
      else [Upsert(Plain(c.value.name, c.value.total, c.value.total, if ev.PushDone? then Done else Failed))]
  }

  datatype SourceEvent =
    | SourceStarted(name: string, total: nat)
    | SourceChunk(bytes: nat)
    | SourceEnded(ok: bool)

  /** The source bridge for a job that belongs to a batch, but for the recheck at its end. */
  function SourceOps(read: seq<Child>, job: nat, ev: SourceEvent): seq<Op> {
    var row := FirstWhere(read, (c: Child) => c.jobId == Some(job));
    match ev
    case SourceStarted(name, total) => [Upsert(Child(Some(job), name, total, 0, Active))]
    case SourceChunk(bytes) =>
      if row.None? then [] else [Upsert(Child(Some(job), row.value.name, row.value.total, row.value.done + bytes, Active))]
    case SourceEnded(ok) =>
      var c := if row.None? then Child(Some(job), "", 0, 0, Active) else row.value;
      [Upsert(Child(Some(job), c.name, c.total, c.done, if ok then Done else Failed))]
  }

  /** The batch handlers stay within the regions for which the books balance, whatever rows they read. */
  lemma HandlersStayWithin(read: seq<Child>, name: string, job: nat, pull: PullEvent, push: PushEvent, source: SourceEvent)
    ensures forall op <- PullOps(read, name, pull) + PushOps(read, push) + SourceOps(read, job, source) :: BeforeFinish(op)
  {
  }

  function DidAll(c: Card, ops: seq<Op>, now: int): Card
    decreases |ops|
  {
    if ops == [] then c else DidAll(Did(c, ops[0], now), ops[1..], now)
  }

  /** The first row of a name, where a child without an engine job goes. */
  ghost predicate NamedRow(cs: seq<Child>, name: string, state: CardState, total: nat, done: nat) {
    exists i | 0 <= i < |cs| ::
      && cs[i] == Child(None, name, total, done, state)
      && forall k | 0 <= k < i :: cs[k].name != name
  }

  /** How much a name's first row has done so far, nothing if there is none. */
  function DoneBefore(cs: seq<Child>, name: string): nat {
    var i := FindName(cs, name);
    if i < |cs| then cs[i].done else 0
  }

  lemma PlainPut(c: Card, name: string, total: nat, done: nat, state: CardState, now: int)
    ensures NamedRow(Did(c, Upsert(Plain(name, total, done, state)), now).dto.children, name, state, total,
                     Max(done, DoneBefore(c.dto.children, name)))
  {
    var ch := Plain(name, total, done, state);
    UpsertPutsRow(c.dto, ch);
    var cs', i := Upserted(c.dto, ch).children, Slot(c.dto.children, ch);
    assert cs'[i] == Child(None, name, total, Max(done, DoneBefore(c.dto.children, name)), state);
  }

  /**
   What each event of a file pulled in a batch makes of that file's row, if no other handler comes between:
   started and resumed files are active, finished and already present ones done, failed ones failed.
   */
  lemma PullSetsRow(c: Card, name: string, ev: PullEvent, now: int)
    requires ev.PullStarted? || ev.PullResumed? || ev.PullInstant? || ev.PullFailed?
    ensures var before := DoneBefore(c.dto.children, name);
            var cs' := DidAll(c, PullOps(c.dto.children, name, ev), now).dto.children;
            match ev
            case PullStarted(total) => NamedRow(cs', name, Active, total, before)
            case PullResumed(already) => NamedRow(cs', name, Active, 0, Max(already, before))
            case PullInstant(total) => NamedRow(cs', name, Done, total, Max(total, before))
            case PullFailed(_) => NamedRow(cs', name, Failed, 0, before)
            case _ => true
  {
    match ev
    case PullStarted(total) =>
      StartThenPut(c, Plain(name, total, 0, Active), now);
      PlainPut(Did(c, Apply(Start), now), name, total, 0, Active, now);
    case PullResumed(already) =>
      StartThenPut(c, Plain(name, 0, already, Active), now);
      PlainPut(Did(c, Apply(Start), now), name, 0, already, Active, now);
    case PullInstant(total) => InstantPut(c, name, total, now);
    case PullFailed(reason) =>
      var ops := [Upsert(Plain(name, 0, 0, Failed)), NoteReason(reason)];
      assert ops[1..] == [NoteReason(reason)] && ops[1..][1..] == [];
      PlainPut(c, name, 0, 0, Failed, now);
      var c1 := Did(c, ops[0], now);
      assert DidAll(c1, ops[1..], now) == DidAll(Did(c1, ops[1], now), [], now);
      assert DidAll(c, ops, now).dto.children == c1.dto.children;
  }

  lemma StartThenPut(c: Card, ch: Child, now: int)
    ensures Did(c, Apply(Start), now).dto.children == c.dto.children
    ensures DidAll(c, [Apply(Start), Upsert(ch)], now) == Did(Did(c, Apply(Start), now), Upsert(ch), now)
  {
    hide Upserted;
    var ops := [Apply(Start), Upsert(ch)];
    assert ops[1..] == [Upsert(ch)] && ops[1..][1..] == [];
    var c1 := Did(c, ops[0], now);
    assert DidAll(c1, ops[1..], now) == DidAll(Did(c1, ops[1], now), [], now);
  }

  lemma InstantPut(c: Card, name: string, total: nat, now: int)
    ensures NamedRow(DidAll(c, PullOps(c.dto.children, name, PullInstant(total)), now).dto.children, name, Done, total,
                     Max(total, DoneBefore(c.dto.children, name)))
  {
    hide Upserted;
    var ops := [Apply(Start), MarkInstant, Upsert(Plain(name, total, total, Done))];
    assert ops[1..] == [MarkInstant, ops[2]] && ops[1..][1..] == [ops[2]] && ops[1..][1..][1..] == [];
    var c1 := Did(c, ops[0], now);
    var c2 := Did(c1, ops[1], now);
    assert c2.dto.children == c.dto.children;
    assert DidAll(c2, [ops[2]], now) == DidAll(Did(c2, ops[2], now), [], now);
    PlainPut(c2, name, total, total, Done, now);
  }

  /** A pulled file's end finishes the row that is active under its name with all its bytes. */
  lemma PullDoneEndsRow(c: Card, name: string, now: int, i: nat)
    requires i < |c.dto.children| && c.dto.children[i].name == name && c.dto.children[i].state.Active?
    requires forall k | 0 <= k < i :: c.dto.children[k].name != name
    ensures var t := c.dto.children[i].total;
            NamedRow(DidAll(c, PullOps(c.dto.children, name, PullDone), now).dto.children, name, Done, t,
                     Max(t, c.dto.children[i].done))
  {
    hide Upserted;
    var cs, row := c.dto.children, c.dto.children[i];
    FirstWhereIs(cs, (x: Child) => x.name == name && x.state.Active?, i);
    var op := Upsert(Plain(name, row.total, row.total, Done));
    assert PullOps(cs, name, PullDone) == [op] && [op][1..] == [];
    assert DidAll(c, [op], now) == DidAll(Did(c, op, now), [], now);
    PlainPut(c, name, row.total, row.total, Done, now);
    assert FindName(cs, name) == i;
  }

  /** Bytes of a pulled file go to its own row. */
  lemma PullChunkAdds(c: Card, name: string, bytes: nat, now: int, i: nat)
    requires i < |c.dto.children| && c.dto.children[i].name == name && c.dto.children[i].jobId.None?
    requires forall k | 0 <= k < i :: c.dto.children[k].name != name
    ensures NamedRow(DidAll(c, PullOps(c.dto.children, name, PullChunk(bytes)), now).dto.children, name, Active,
                     c.dto.children[i].total, c.dto.children[i].done + bytes)
  {
    hide Upserted;
    var cs, row := c.dto.children, c.dto.children[i];
    FirstWhereIs(cs, (x: Child) => x.name == name && x.jobId.None?, i);
    var op := Upsert(Plain(name, row.total, row.done + bytes, Active));
    assert PullOps(cs, name, PullChunk(bytes)) == [op] && [op][1..] == [];
    assert DidAll(c, [op], now) == DidAll(Did(c, op, now), [], now);
    PlainPut(c, name, row.total, row.done + bytes, Active, now);
    assert FindName(cs, name) == i;
  }

  /** Row `i` is the first of an engine job. */
  ghost predicate FirstOfJob(cs: seq<Child>, job: nat, i: nat) {
    i < |cs| && cs[i].jobId == Some(job) && forall k | 0 <= k < i :: cs[k].jobId != Some(job)
  }

  /** A job started in a batch has an active row, with its name and total, and nothing done that was not. */
  lemma SourceStartSetsRow(c: Card, job: nat, name: string, total: nat, now: int) returns (i: nat)
    ensures var cs := c.dto.children;
            var cs' := DidAll(c, SourceOps(cs, job, SourceStarted(name, total)), now).dto.children;
            && FirstOfJob(cs', job, i)
            && cs'[i] == Child(Some(job), name, total, if i < |cs| then cs[i].done else 0, Active)
  {
    hide Upserted;
    var ch := Child(Some(job), name, total, 0, Active);
    assert [Upsert(ch)][1..] == [] && DidAll(c, [Upsert(ch)], now) == DidAll(Did(c, Upsert(ch), now), [], now);
    UpsertPutsRow(c.dto, ch);
    i := Slot(c.dto.children, ch);
  }

  /** Bytes of the job, and its end, go to its row, which keeps its name and total. */
  lemma SourceEventSetsRow(c: Card, job: nat, ev: SourceEvent, now: int, i: nat)
    requires FirstOfJob(c.dto.children, job, i) && !ev.SourceStarted?
    ensures var row, cs' := c.dto.children[i], DidAll(c, SourceOps(c.dto.children, job, ev), now).dto.children;
            && FirstOfJob(cs', job, i)
            && cs'[i] == match ev
                         case SourceChunk(bytes) => row.(done := row.done + bytes, state := Active)
                         case SourceEnded(ok) => row.(state := if ok then Done else Failed)
                         case _ => row
  {
    hide Upserted;
    var cs, row := c.dto.children, c.dto.children[i];
    FirstWhereIs(cs, (x: Child) => x.jobId == Some(job), i);
    var ch := if ev.SourceChunk? then row.(done := row.done + ev.bytes, state := Active)
              else row.(state := if ev.ok then Done else Failed);
    assert SourceOps(cs, job, ev) == [Upsert(ch)] && [Upsert(ch)][1..] == [];
    assert DidAll(c, [Upsert(ch)], now) == DidAll(Did(c, Upsert(ch), now), [], now);
    UpsertPutsRow(c.dto, ch);
    assert FindJob(cs, job) == i;
  }

  /** The end of a pushed small file ends the oldest active row without a job, if rows are apart. */
  lemma PushEndsOldest(c: Card, ev: PushEvent, now: int, i: nat)
    requires (ev.PushDone? || ev.PushFailed?) && RowsApart(c.dto.children)
    requires i < |c.dto.children| && c.dto.children[i].state.Active? && c.dto.children[i].jobId.None?
    requires forall k | 0 <= k < i :: !(c.dto.children[k].state.Active? && c.dto.children[k].jobId.None?)
    ensures var row, cs' := c.dto.children[i], DidAll(c, PushOps(c.dto.children, ev), now).dto.children;
            && |cs'| == |c.dto.children|
            && cs'[i] == row.(done := Max(row.total, row.done), state := if ev.PushDone? then Done else Failed)
            && forall k | 0 <= k < |cs'| && k != i :: cs'[k] == c.dto.children[k]
  {
    hide Upserted;
    var cs, row := c.dto.children, c.dto.children[i];
    FirstWhereIs(cs, (x: Child) => x.state.Active? && x.jobId.None?, i);
    var ch := Plain(row.name, row.total, row.total, if ev.PushDone? then Done else Failed);
    assert PushOps(cs, ev) == [Upsert(ch)] && [Upsert(ch)][1..] == [];
    assert DidAll(c, [Upsert(ch)], now) == DidAll(Did(c, Upsert(ch), now), [], now);
    UpsertPutsRow(c.dto, ch);
    GoesOnce(cs, ch, Slot(cs, ch), i);
  }

  lemma {:induction false} FirstWhereIs(cs: seq<Child>, p: Child -> bool, i: nat)
    requires i < |cs| && p(cs[i]) && forall k | 0 <= k < i :: !p(cs[k])
    ensures FirstWhere(cs, p) == Some(cs[i])
  {
    if i > 0 {
      FirstWhereIs(cs[1..], p, i - 1);
    }
  }

  // ----- Identity of rows -----

  /** Engine jobs occur once; a row without one is the first of its name. */
  ghost predicate RowsApart(cs: seq<Child>) {
    && (forall i, j | 0 <= i < j < |cs| :: cs[i].jobId.Some? ==> cs[i].jobId != cs[j].jobId)
    && (forall i, j | 0 <= i < j < |cs| :: cs[j].jobId.None? ==> cs[i].name != cs[j].name)
  }

  predicate NamedBy(nameOf: nat -> string, ch: Child) {
    ch.jobId.Some? ==> ch.name == nameOf(ch.jobId.value)
  }

  function UpsertedAll(d: Dto, chs: seq<Child>): Dto
    decreases |chs|
  {
    if chs == [] then d else UpsertedAll(Upserted(d, chs[0]), chs[1..])
  }

  lemma {:induction false} UpsertedSnoc(d: Dto, chs: seq<Child>, ch: Child)
    ensures UpsertedAll(d, chs + [ch]) == Upserted(UpsertedAll(d, chs), ch)
    decreases |chs|
  {
    hide Upserted;
    if chs == [] {
      assert ([] + [ch])[1..] == [] && UpsertedAll(Upserted(d, ch), []) == Upserted(d, ch);
    } else {
      assert (chs + [ch])[1..] == chs[1..] + [ch];
      UpsertedSnoc(Upserted(d, chs[0]), chs[1..], ch);
    }
  }

  /** The last child that went to row `i`. */
  function LastTo(d: Dto, chs: seq<Child>, i: nat): Option<Child>
    decreases |chs|
  {
    if chs == [] then None else
    var init, ch := chs[..|chs| - 1], chs[|chs| - 1];
    if Slot(UpsertedAll(d, init).children, ch) == i then Some(ch) else LastTo(d, init, i)
  }

  /** After any upserts each row is, but for what it has done, the last child that went to it. */
  lemma {:induction false} RowIsLast(d: Dto, chs: seq<Child>, i: nat)
    requires i < |UpsertedAll(d, chs).children|
    ensures var row, last := UpsertedAll(d, chs).children[i], LastTo(d, chs, i);
            if last.Some? then row == last.value.(done := row.done) && row.done >= last.value.done
            else i < |d.children| && row == d.children[i]
    decreases |chs|
  {
    hide Upserted, Goes;
    if chs != [] {
      var init, ch := chs[..|chs| - 1], chs[|chs| - 1];
      assert chs == init + [ch];
      UpsertedSnoc(d, init, ch);
      UpsertPutsRow(UpsertedAll(d, init), ch);
      if Slot(UpsertedAll(d, init).children, ch) != i {
        RowIsLast(d, init, i);
      }
    }
  }

  lemma UpsertKeepsApart(d: Dto, ch: Child, nameOf: nat -> string)
    requires RowsApart(d.children) && NamedBy(nameOf, ch) && forall c <- d.children :: NamedBy(nameOf, c)
    ensures RowsApart(Upserted(d, ch).children) && forall c <- Upserted(d, ch).children :: NamedBy(nameOf, c)
  {
    var cs, cs' := d.children, Upserted(d, ch).children;
    var i := Slot(cs, ch);
    if i < |cs| {
      assert NamedBy(nameOf, cs[i]);
    }
  }

  /** The row of an engine job takes a name that a later row without a job already has. */
  ghost predicate Clashes(cs: seq<Child>, ch: Child) {
    ch.jobId.Some? &&
    var i := FindJob(cs, ch.jobId.value);
    exists j | i < j < |cs| :: cs[j].jobId.None? && cs[j].name == ch.name
  }

  /** The exact condition for one upsert, names being what they may. */
  lemma UpsertKeepsApartIff(d: Dto, ch: Child)
    requires RowsApart(d.children)
    ensures RowsApart(Upserted(d, ch).children) <==> !Clashes(d.children, ch)
  {
    var cs, cs' := d.children, Upserted(d, ch).children;
    if Clashes(cs, ch) {
      var i := FindJob(cs, ch.jobId.value);
      var j :| i < j < |cs| && cs[j].jobId.None? && cs[j].name == ch.name;
      assert cs'[i].name == ch.name && cs'[j] == cs[j];
    }
  }

  /** If each job id comes with one file name, any sequence of upserts keeps the rows apart. */
  lemma {:induction false} RowsStayApart(d: Dto, chs: seq<Child>, nameOf: nat -> string)
    requires RowsApart(d.children) && (forall c <- d.children :: NamedBy(nameOf, c)) && forall c <- chs :: NamedBy(nameOf, c)
    ensures RowsApart(UpsertedAll(d, chs).children)
    decreases |chs|
  {
    if chs != [] {
      UpsertKeepsApart(d, chs[0], nameOf);
      RowsStayApart(Upserted(d, chs[0]), chs[1..], nameOf);
    }
  }

  /** Without that, it fails: one job under two names leaves a nameless-job row behind a row of its name. */
  lemma TwoNamesBreakIt(d: Dto)
    requires d.children == []
    ensures var chs := [Child(Some(1), "a", 0, 0, Active), Child(None, "b", 0, 0, Active), Child(Some(1), "b", 0, 0, Active)];
            !RowsApart(UpsertedAll(d, chs).children)
  {
    var x, y, z := Child(Some(1), "a", 0, 0, Active), Child(None, "b", 0, 0, Active), Child(Some(1), "b", 0, 0, Active);
    assert "a"[0] == 'a' && "b"[0] == 'b';
    var d1 := Upserted(d, x);
    assert d1.children == [x];
    var d2 := Upserted(d1, y);
    assert FindName([x], "b") == 1;
    assert d2.children == [x, y];
    var d3 := Upserted(d2, z);
    assert FindJob([x, y], 1) == 0;
    assert d3.children[0].name == d3.children[1].name && d3.children[1].jobId.None?;
    assert UpsertedAll(d, [x, y, z]) == d3 by {
      hide Upserted;
      assert [x, y, z][1..] == [y, z] && [y, z][1..] == [z] && [z][1..] == [];
      assert UpsertedAll(d3, []) == d3;
      assert UpsertedAll(d2, [z]) == UpsertedAll(d3, []);
      assert UpsertedAll(d1, [y, z]) == UpsertedAll(d2, [z]);
    }
  }
}
