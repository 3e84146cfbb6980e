/**
 The state machine of one transfer card. All state changes go through `apply`; what the table does
 not list is refused, and terminal states absorb every event.
 */
module TransferCards {
  import opened Prelude

  datatype CardState = Pending | Active | Paused | Cancelling | Done | Failed | Interrupted

  function AsStr(s: CardState): string {
    match s
    case Pending => "pending"
    case Active => "active"
    case Paused => "paused"
    case Cancelling => "cancelling"
    case Done => "done"
    case Failed => "failed"
    case Interrupted => "interrupted"
  }

  function StateFromStr(s: string): Option<CardState> {
    if s == "pending" then Some(Pending)
    else if s == "active" then Some(Active)
    else if s == "paused" then Some(Paused)
    else if s == "cancelling" then Some(Cancelling)
    else if s == "done" then Some(Done)
    else if s == "failed" then Some(Failed)
    else if s == "interrupted" then Some(Interrupted)
    else None
  }

  /** A string names a state exactly when it is that state's own name. */
  lemma StateNames(s: string, st: CardState)
    ensures StateFromStr(s) == Some(st) <==> s == AsStr(st)
  {
    assert "pending"[0] == 'p' && "paused"[0] == 'p' && "pending"[1] == 'e' && "paused"[1] == 'a';
    assert "active"[0] == 'a' && "cancelling"[0] == 'c' && "done"[0] == 'd' && "failed"[0] == 'f' && "interrupted"[0] == 'i';
  }

  predicate Terminal(s: CardState) {
    s.Done? || s.Failed? || s.Interrupted?
  }

  /** Transport health is carried along unread. */
  type Health = nat

  datatype Event =
    | Start
    | Progress(done: nat, total: nat, speed: nat, remoteDone: nat, health: Option<Health>)
    | Pause
    | Resume
    | Fail(reason: Option<string>)
    | Finish
    | Interrupt
    | CancelRequest
    | CancelConfirm
    | QueueTimeout

  /** One file of a batch. A small file has no engine job of its own. */
  datatype Child = Child(jobId: Option<nat>, name: string, total: nat, done: nat, state: CardState)

  datatype Dto = Dto(name: string, total: nat, done: nat, state: CardState, speed: nat,
                     peer: seq<byte>, direction: string, health: Option<Health>,
                     startedAt: Option<int>, finishedAt: Option<int>, failReason: Option<string>,
                     remoteDone: nat, queuePos: Option<nat>, instant: bool, children: seq<Child>,
                     partsId: Option<nat>)

  datatype Card = Card(dto: Dto, engineId: Option<nat>, removed: bool, cancellingSince: Option<int>,
                       lastTransition: Option<(CardState, CardState)>)

  function NewCard(dto: Dto): Card {
    Card(dto, None, false, None, None)
  }

  // ----- The transition table -----

  /** Whether, and to which state, an event moves a card; self-loops included. */
  function Edge(from: CardState, ev: Event): Option<CardState> {
    match from
    case Pending =>
      if ev.Start? then Some(Active)
      else if ev.QueueTimeout? || ev.Fail? then Some(Failed)
      else if ev.CancelRequest? then Some(Cancelling)
      else None
    case Active =>
      if ev.Progress? then Some(Active)
      else if ev.Pause? then Some(Paused)
      else Ending(ev, true)
    case Paused => if ev.Resume? then Some(Active) else Ending(ev, true)
    case Cancelling => if ev.CancelConfirm? then Some(Cancelling) else Ending(ev, false)
    case _ => None
  }

  /** The ways out that active, paused and cancelling cards share. */
  function Ending(ev: Event, cancellable: bool): Option<CardState> {
    match ev
    case Fail(_) => Some(Failed)
    case Finish => Some(Done)
    case Interrupt => Some(Interrupted)
    case CancelRequest => if cancellable then Some(Cancelling) else None
    case _ => None
  }

  /** Only leaving `cancelling` clears its mark. */
  function Unmarked(c: Card): Option<int> {
    if c.dto.state.Cancelling? then None else c.cancellingSince
  }

  /** The fields an accepted event leaves behind, the state itself aside. */
  function Marked(c: Card, ev: Event, now: int): Card {
    match ev
    case Start => c.(dto := c.dto.(startedAt := Some(now)))
    case Progress(done, total, speed, remoteDone, health) =>
      c.(dto := c.dto.(done := done, total := total, speed := speed, remoteDone := remoteDone,
                       health := if health.Some? then health else c.dto.health))
    case Pause => c.(dto := c.dto.(speed := 0))
    case Resume => c
    case Fail(reason) =>
      c.(dto := c.dto.(failReason := if reason.Some? then reason else c.dto.failReason, speed := 0, finishedAt := Some(now)),
         cancellingSince := Unmarked(c))
    case Finish => c.(dto := c.dto.(done := c.dto.total, speed := 0, finishedAt := Some(now)), cancellingSince := Unmarked(c))
    case Interrupt => c.(dto := c.dto.(speed := 0, finishedAt := Some(now)), cancellingSince := Unmarked(c))
    case CancelRequest => c.(cancellingSince := Some(now))
    case CancelConfirm => c
    case QueueTimeout => c.(dto := c.dto.(failReason := Some("排队超时")))
  }

  /** The card after an event; refused events leave it alone. */
  function Applied(c: Card, ev: Event, now: int): Card {
    var to := Edge(c.dto.state, ev);
    if to.None? then c
    else if ev.Progress? || ev.CancelConfirm? then Marked(c, ev, now)
    else
      var m := Marked(c, ev, now);
      m.(dto := m.dto.(state := to.value), lastTransition := Some((c.dto.state, to.value)))
  }

  predicate Accepts(c: Card, ev: Event) {
    Edge(c.dto.state, ev).Some?
  }

  /** `cancelling_since_ms` is set exactly while cancelling. */
  predicate Coherent(c: Card) {
    c.cancellingSince.Some? <==> c.dto.state.Cancelling?
  }

  class TransferCard {
    var dto: Dto
    var engineId: Option<nat>
    var removed: bool
    var cancellingSince: Option<int>
    var lastTransition: Option<(CardState, CardState)>

    ghost function View(): Card
      reads this
    {
      Card(dto, engineId, removed, cancellingSince, lastTransition)
    }

    constructor (dto: Dto)
      ensures View() == NewCard(dto)
    {
      this.dto, engineId, removed, cancellingSince, lastTransition := dto, None, false, None, None;
    }

    method RecordFail(reason: Option<string>, now: int)
      modifies this`dto
      ensures dto == old(dto).(failReason := if reason.Some? then reason else old(dto).failReason,
                               speed := 0, finishedAt := Some(now))
    {
      if reason.Some? {
        dto := dto.(failReason := reason);
      }
      dto := dto.(speed := 0, finishedAt := Some(now));
    }

    method Apply(ev: Event, now: int) returns (accepted: bool)
      modifies this
      ensures View() == Applied(old(View()), ev, now) && accepted == Accepts(old(View()), ev)
    {
      var from := dto.state;
      if Terminal(from) {
        return false;
      }
      var to;
      match (from, ev) {
        case (Pending, Start) => dto := dto.(startedAt := Some(now)); to := Active;
        case (Pending, QueueTimeout) => dto := dto.(failReason := Some("排队超时")); to := Failed;
        case (Pending, Fail(reason)) => RecordFail(reason, now); to := Failed;
        case (Pending, CancelRequest) => cancellingSince := Some(now); to := Cancelling;
        case (Active, Progress(done, total, speed, remoteDone, health)) =>
          dto := dto.(done := done, total := total, speed := speed, remoteDone := remoteDone);
          if health.Some? { dto := dto.(health := health); }
          return true;
        case (Active, Pause) => dto := dto.(speed := 0); to := Paused;
        case (Active, Fail(reason)) => RecordFail(reason, now); to := Failed;
        case (Active, Finish) => dto := dto.(done := dto.total, speed := 0, finishedAt := Some(now)); to := Done;
        case (Active, Interrupt) => dto := dto.(speed := 0, finishedAt := Some(now)); to := Interrupted;
        case (Active, CancelRequest) => cancellingSince := Some(now); to := Cancelling;
        case (Paused, Resume) => to := Active;
        case (Paused, Fail(reason)) => RecordFail(reason, now); to := Failed;
        case (Paused, Interrupt) => dto := dto.(speed := 0, finishedAt := Some(now)); to := Interrupted;
        case (Paused, Finish) => dto := dto.(done := dto.total, speed := 0, finishedAt := Some(now)); to := Done;
        case (Paused, CancelRequest) => cancellingSince := Some(now); to := Cancelling;
        case (Cancelling, CancelConfirm) => return true;
        case (Cancelling, Fail(reason)) => cancellingSince := None; RecordFail(reason, now); to := Failed;
        case (Cancelling, Interrupt) =>
          cancellingSince := None;
          dto := dto.(speed := 0, finishedAt := Some(now));
          to := Interrupted;
        case (Cancelling, Finish) =>
          cancellingSince := None;
          dto := dto.(done := dto.total, speed := 0, finishedAt := Some(now));
          to := Done;
        case _ => return false;
      }
      dto := dto.(state := to);
      lastTransition := Some((from, to));
      accepted := true;
    }

    method TakeLastTransition() returns (t: Option<(CardState, CardState)>)
      modifies this`lastTransition
      ensures t == old(lastTransition) && lastTransition == None
    {
      t := lastTransition;
      lastTransition := None;
    }
  }

  // ----- The table as a list, and the fields one by one -----

  datatype Kind = Starts | Progresses | Pauses | Resumes | Fails | Finishes | Interrupts | Requests | Confirms | TimesOut

  function KindOf(ev: Event): Kind {
    match ev
    case Start => Starts
    case Progress(_, _, _, _, _) => Progresses
    case Pause => Pauses
    case Resume => Resumes
    case Fail(_) => Fails
    case Finish => Finishes
    case Interrupt => Interrupts
    case CancelRequest => Requests
    case CancelConfirm => Confirms
    case QueueTimeout => TimesOut
  }

  const EDGES: set<(CardState, Kind, CardState)> := {
    (Pending, Starts, Active), (Pending, TimesOut, Failed), (Pending, Fails, Failed), (Pending, Requests, Cancelling),
    (Active, Progresses, Active), (Active, Pauses, Paused), (Active, Fails, Failed), (Active, Finishes, Done),
    (Active, Interrupts, Interrupted), (Active, Requests, Cancelling),
    (Paused, Resumes, Active), (Paused, Fails, Failed), (Paused, Interrupts, Interrupted), (Paused, Finishes, Done),
    (Paused, Requests, Cancelling),
    (Cancelling, Confirms, Cancelling), (Cancelling, Fails, Failed), (Cancelling, Interrupts, Interrupted),
    (Cancelling, Finishes, Done)
  }

  /** An event is accepted, and leads where it leads, exactly as one of nineteen edges says. */
  lemma EdgeIffListed(from: CardState, ev: Event, to: CardState)
    ensures Edge(from, ev) == Some(to) <==> (from, KindOf(ev), to) in EDGES
  {
  }

  /** Each field of a card after an accepted event. */
  lemma FieldsAfter(c: Card, ev: Event, now: int)
    requires Accepts(c, ev)
    ensures var c', d, d' := Applied(c, ev, now), c.dto, Applied(c, ev, now).dto;
            var stays := ev.Progress? || ev.CancelConfirm?;
            && d'.state == Edge(d.state, ev).value
            && d'.done == (if ev.Progress? then ev.done else if ev.Finish? then d.total else d.done)
            && d'.total == (if ev.Progress? then ev.total else d.total)
            && d'.speed == (if ev.Progress? then ev.speed
                            else if ev.Pause? || ev.Fail? || ev.Finish? || ev.Interrupt? then 0 else d.speed)
            && d'.remoteDone == (if ev.Progress? then ev.remoteDone else d.remoteDone)
            && d'.health == (if ev.Progress? && ev.health.Some? then ev.health else d.health)
            && d'.startedAt == (if ev.Start? then Some(now) else d.startedAt)
            && d'.finishedAt == (if ev.Fail? || ev.Finish? || ev.Interrupt? then Some(now) else d.finishedAt)
            && d'.failReason == (if ev.Fail? && ev.reason.Some? then ev.reason
                                 else if ev.QueueTimeout? then Some("排队超时") else d.failReason)
            && d'.name == d.name && d'.peer == d.peer && d'.direction == d.direction && d'.children == d.children
            && d'.queuePos == d.queuePos && d'.instant == d.instant && d'.partsId == d.partsId
            && c'.engineId == c.engineId && c'.removed == c.removed
            && c'.cancellingSince == (if ev.CancelRequest? then Some(now)
                                      else if d.state.Cancelling? && !stays then None else c.cancellingSince)
            && c'.lastTransition == if stays then c.lastTransition else Some((d.state, d'.state))
  {
  }

  /** Pausing and resuming an active card costs it nothing but its momentary speed. */
  lemma PauseResume(c: Card, now: int, later: int)
    requires c.dto.state.Active?
    ensures Applied(Applied(c, Pause, now), Resume, later) ==
            c.(dto := c.dto.(speed := 0), lastTransition := Some((Paused, Active)))
  {
  }

  // ----- Over whole histories -----

  datatype Timed = Timed(event: Event, now: int)

  function AppliedAll(c: Card, evs: seq<Timed>): Card
    decreases |evs|
  {
    if evs == [] then c else AppliedAll(Applied(c, evs[0].event, evs[0].now), evs[1..])
  }

  /** A terminal card is untouched by any history: state, times, reason and counts. */
  lemma {:induction false} TerminalAbsorbs(c: Card, evs: seq<Timed>)
    requires Terminal(c.dto.state)
    ensures AppliedAll(c, evs) == c
    decreases |evs|
  {
    if evs != [] {
      assert Applied(c, evs[0].event, evs[0].now) == c;
      TerminalAbsorbs(c, evs[1..]);
    }
  }

  /** What a card's record says of how it got where it is. */
  ghost predicate Truthful(c: Card) {
    && Coherent(c)
    && (c.dto.state.Done? ==> c.dto.done == c.dto.total && c.dto.finishedAt.Some?)
    && (c.dto.state.Interrupted? ==> c.dto.finishedAt.Some?)
    && (c.dto.finishedAt.None? && c.dto.state.Failed? ==> c.dto.failReason == Some("排队超时") && c.dto.startedAt.None?)
    && (!Terminal(c.dto.state) ==> c.dto.finishedAt.None?)
    && (c.dto.state.Pending? ==> c.dto.startedAt.None?)
  }

  /**
   From a fresh card on, every history leaves a truthful record: the cancel mark is set exactly while
   cancelling, a finish time exactly on terminal cards but for a queue time-out, full counts when done.
   */
  lemma {:induction false} HistoryIsTruthful(c: Card, evs: seq<Timed>)
    requires Truthful(c)
    ensures Truthful(AppliedAll(c, evs))
    decreases |evs|
  {
    if evs != [] {
      HistoryIsTruthful(Applied(c, evs[0].event, evs[0].now), evs[1..]);
    }
  }

  lemma FreshIsTruthful(dto: Dto)
    requires dto.state.Pending? && dto.startedAt.None? && dto.finishedAt.None?
    ensures Truthful(NewCard(dto))
  {
  }

  /** Finish, fail and interrupt leave every card ended but a pending one, and fail ends that too. */
  lemma EndingAlwaysWorks(c: Card, ev: Event, now: int)
    requires ev.Finish? || ev.Fail? || ev.Interrupt?
    ensures Terminal(Applied(c, ev, now).dto.state) <==> !c.dto.state.Pending? || ev.Fail?
  {
  }
}
