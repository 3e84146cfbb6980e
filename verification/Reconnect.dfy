/**
 The automatic reconnection of one remembered device: what it does on every beat, told by its history alone,
 and the bounds this keeps.
 */
module Reconnect {
  import opened Prelude

  const BACKOFF_BASE_SECS: nat := 2
  const BACKOFF_CAP_SECS: nat := 30
  const MAX_CONSECUTIVE_FAILURES: nat := 5

  function Min(a: nat, b: nat): nat {
    if a <= b then a else b
  }

  function Pow2(n: nat): nat {
    if n == 0 then 1 else 2 * Pow2(n - 1)
  }

  /** Seconds to wait after so many failures in a row. */
  function BackoffSecs(failures: nat): nat {
    if failures == 0 then BACKOFF_BASE_SECS
    else Min(Min(BACKOFF_BASE_SECS * Pow2(Min(failures - 1, 31)), U64 - 1), BACKOFF_CAP_SECS)
  }

  predicate GiveUp(failures: nat) {
    failures >= MAX_CONSECUTIVE_FAILURES
  }

  function Clamp(r: real): real {
    if r < 0.0 then 0.0 else if r > 1.0 then 1.0 else r
  }

  /** Rounding half up, which on these positive numbers is rounding half away from zero. */
  function Round(x: real): int {
    (x + 0.5).Floor
  }

  function Scaled(base: nat, scale: real): real {
    base as real * scale
  }

  /** A fifth more or less than the base, by a random number, and at least a second. */
  function JitterSecs(base: nat, r: real): int {
    var secs := Round(Scaled(base, 1.0 - 0.2 + 2.0 * 0.2 * Clamp(r)));
    if secs < 1 then 1 else secs
  }

  lemma BackoffSequence(failures: nat)
    ensures BackoffSecs(failures) ==
            if failures <= 1 then 2 else if failures == 2 then 4 else if failures == 3 then 8
            else if failures == 4 then 16 else 30
  {
    if failures >= 5 {
      var e := Min(failures - 1, 31);
      PowGrows(4, e);
      assert Pow2(2) == 4 && Pow2(4) == 16;
    } else if failures >= 2 {
      assert Pow2(1) == 2 && Pow2(2) == 4 && Pow2(3) == 8;
    }
  }

  lemma {:induction false} PowGrows(a: nat, b: nat)
    requires a <= b
    ensures Pow2(a) <= Pow2(b)
  {
    if a < b {
      PowGrows(a, b - 1);
    }
  }

  /** Whatever the random number, even one out of range, a wait stays within a fifth of its base. */
  lemma JitterWithin(base: nat, r: real)
    requires base > 1
    ensures Round(Scaled(base, 0.8)) <= JitterSecs(base, r) <= Round(Scaled(base, 1.2))
  {
    hide Scaled;
    var scale := 1.0 - 0.2 + 2.0 * 0.2 * Clamp(r);
    assert 0.8 <= scale <= 1.2;
    ScaledMonotone(base, 0.8, scale);
    ScaledMonotone(base, scale, 1.2);
    RoundMonotone(Scaled(base, 0.8), Scaled(base, scale));
    RoundMonotone(Scaled(base, scale), Scaled(base, 1.2));
    AtLeastOne(base);
  }

  /** A random number between 0 and 1 spreads the wait evenly over that range, to the nearest second. */
  lemma JitterNearest(base: nat, r: real)
    requires base > 1 && 0.0 <= r <= 1.0
    ensures Scaled(base, 0.8 + 0.4 * r) - 0.5 <= JitterSecs(base, r) as real <= Scaled(base, 0.8 + 0.4 * r) + 0.5
  {
    hide Scaled;
    ScaledMonotone(base, 0.8, 0.8 + 0.4 * r);
    RoundMonotone(Scaled(base, 0.8), Scaled(base, 0.8 + 0.4 * r));
    AtLeastOne(base);
  }

  lemma AtLeastOne(base: nat)
    requires base > 1
    ensures Round(Scaled(base, 0.8)) >= 1
  {
    RoundMonotone(1.0, Scaled(base, 0.8));
  }

  lemma ScaledMonotone(base: nat, x: real, y: real)
    requires x <= y
    ensures Scaled(base, x) <= Scaled(base, y)
  {
  }

  lemma RoundMonotone(x: real, y: real)
    requires x <= y
    ensures Round(x) <= Round(y)
  {
  }

  // ----- History -----

  datatype Event = Notice | Wait(secs: int) | Seen(present: bool) | Rearmed | Attempt(ok: bool) | Exit

  /** What the loop finds on one beat: its guards, the dice, the guard after the wait, the address book, the attempt. */
  datatype Beat = Beat(mayRun: bool, r: real, taken: bool, present: bool, ok: bool)

  function Front(p: seq<Event>): seq<Event>
    requires p != []
  {
    p[..|p| - 1]
  }

  function Last(p: seq<Event>): Event
    requires p != []
  {
    p[|p| - 1]
  }

  /** Attempts since the start or the last re-arming. */
  function RoundAttempts(p: seq<Event>): nat {
    if p == [] || Last(p).Rearmed? then 0 else RoundAttempts(Front(p)) + if Last(p).Attempt? then 1 else 0
  }

  /** Give-up notices since the start or the last re-arming. */
  function RoundNotices(p: seq<Event>): nat {
    if p == [] || Last(p).Rearmed? then 0 else RoundNotices(Front(p)) + if Last(p).Notice? then 1 else 0
  }

  /** The peer was last seen absent, or never looked for. */
  predicate PeerAbsent(p: seq<Event>) {
    p == [] || if Last(p).Seen? then !Last(p).present else PeerAbsent(Front(p))
  }

  /** The peer has been seen absent since the last notice. */
  predicate AbsentSinceNotice(p: seq<Event>) {
    p != [] && !Last(p).Notice? && (Last(p) == Seen(false) || AbsentSinceNotice(Front(p)))
  }

  predicate Stopped(p: seq<Event>) {
    p != [] && Last(p).Exit?
  }

  /** A beat, decided on by the history alone. */
  function Beaten(p: seq<Event>, b: Beat): seq<Event> {
    if !b.mayRun then p + [Exit] else
    var p1 := if RoundAttempts(p) >= 5 && RoundNotices(p) == 0 then p + [Notice] else p;
    var p2 := p1 + [Wait(JitterSecs(BackoffSecs(RoundAttempts(p1) + 1), b.r))];
    if b.taken then p2 + [Exit] else Tried(p2, b)
  }

  /** The second half of a beat, after the wait. */
  function Tried(p: seq<Event>, b: Beat): seq<Event> {
    var seen := p + [Seen(b.present)];
    var rearm := RoundNotices(p) > 0 && PeerAbsent(p) && b.present;
    if !b.present || (RoundNotices(p) > 0 && !rearm) then seen else
    var armed := if rearm then seen + [Rearmed] else seen;
    if b.ok then armed + [Attempt(true)] + [Exit] else armed + [Attempt(false)]
  }

  function Story(p: seq<Event>, beats: seq<Beat>): seq<Event>
    decreases |beats|
  {
    if beats == [] || Stopped(p) then p else Story(Beaten(p, beats[0]), beats[1..])
  }

  /** What one more event does to the history's summary. */
  lemma Snoc(p: seq<Event>, e: Event)
    ensures RoundAttempts(p + [e]) == if e.Rearmed? then 0 else RoundAttempts(p) + if e.Attempt? then 1 else 0
    ensures RoundNotices(p + [e]) == if e.Rearmed? then 0 else RoundNotices(p) + if e.Notice? then 1 else 0
    ensures PeerAbsent(p + [e]) == if e.Seen? then !e.present else PeerAbsent(p)
    ensures AbsentSinceNotice(p + [e]) == (!e.Notice? && (e == Seen(false) || AbsentSinceNotice(p)))
    ensures Stopped(p + [e]) == e.Exit?
  {
    assert Front(p + [e]) == p && Last(p + [e]) == e;
  }

  // ----- What each beat must show -----

  /** A give-up notice that no re-arming has followed. */
  ghost predicate NoticeOpen(p: seq<Event>) {
    exists k | 0 <= k < |p| :: p[k] == Notice && Rearmed !in p[k..]
  }

  /** Every sighting of the peer present is followed by one of it absent. */
  ghost predicate LastSeenAbsent(p: seq<Event>) {
    forall k | 0 <= k < |p| && p[k] == Seen(true) :: Seen(false) in p[k..]
  }

  function Rank(e: Event): nat {
    match e
    case Notice => 0
    case Wait(_) => 1
    case Seen(_) => 2
    case Rearmed => 3
    case Attempt(_) => 4
    case Exit => 5
  }

  predicate Ascending(events: seq<Event>) {
    forall i, j | 0 <= i < j < |events| :: Rank(events[i]) < Rank(events[j])
  }

  /**
   The events one beat adds to a history, by kind: each at most once, in the order of their ranks, and
   present exactly if the beat and the history before it call for it.
   */
  ghost predicate BeatShows(p: seq<Event>, events: seq<Event>, b: Beat) {
    var open := NoticeOpen(p);
    var givesUp := b.mayRun && RoundAttempts(p) >= 5 && !open;
    var looks := b.mayRun && !b.taken;
    var tries := looks && b.present && ((!open && !givesUp) || LastSeenAbsent(p));
    && Ascending(events)
    && (Notice in events <==> givesUp)
    && (forall secs :: Wait(secs) in events <==>
                       b.mayRun && secs == JitterSecs(BackoffSecs(RoundAttempts(p) + 1), b.r))
    && (forall x :: Seen(x) in events <==> looks && x == b.present)
    && (Rearmed in events <==> tries && (open || givesUp))
    && (forall ok :: Attempt(ok) in events <==> tries && ok == b.ok)
    && (Exit in events <==> !b.mayRun || b.taken || Attempt(true) in events)
  }

  /** The events between two marks are those of the beat, and none of them ends the loop if more beats follow. */
  ghost predicate Stretch(trace: seq<Event>, from: nat, to: nat, b: Beat, more: bool) {
    && from <= to <= |trace| && BeatShows(trace[..from], trace[from..to], b)
    && (more ==> Exit !in trace[from..to])
  }

  /** A trace that grew from `p` over beats, beat `i` having added what lies between marks `i` and `i + 1`. */
  ghost predicate Told(p: seq<Event>, trace: seq<Event>, marks: seq<nat>, beats: seq<Beat>) {
    && 1 <= |marks| <= |beats| + 1 && marks[0] == |p| && p <= trace && marks[|marks| - 1] == |trace|
    && (forall i | 0 <= i < |marks| - 1 :: Stretch(trace, marks[i], marks[i + 1], beats[i], i < |marks| - 2))
    && (|marks| <= |beats| ==> |marks| >= 2 && Stopped(trace))
  }

  lemma {:induction false} NoticeOpenIff(p: seq<Event>)
    ensures NoticeOpen(p) <==> RoundNotices(p) > 0
  {
    if p != [] {
      var f, e := Front(p), Last(p);
      NoticeOpenIff(f);
      forall k | 0 <= k < |f| ensures p[k] == f[k] && p[k..] == f[k..] + [e] {
      }
      assert p[|f|..] == [e];
      if NoticeOpen(f) && !e.Rearmed? {
        var k :| 0 <= k < |f| && f[k] == Notice && Rearmed !in f[k..];
        assert p[k] == Notice && Rearmed !in p[k..];
      }
      if e.Notice? {
        assert p[|f|] == Notice && Rearmed !in p[|f|..];
      }
    }
  }

  lemma {:induction false} LastSeenAbsentIff(p: seq<Event>)
    ensures LastSeenAbsent(p) <==> PeerAbsent(p)
  {
    if p != [] {
      var f, e := Front(p), Last(p);
      LastSeenAbsentIff(f);
      forall k | 0 <= k < |f| ensures p[k] == f[k] && p[k..] == f[k..] + [e] {
      }
      assert p[|f|..] == [e];
      if e.Seen? && e.present {
        assert p[|f|] == Seen(true) && Seen(false) !in p[|f|..];
      } else if !e.Seen? && !LastSeenAbsent(f) {
        var k :| 0 <= k < |f| && f[k] == Seen(true) && Seen(false) !in f[k..];
        assert p[k] == Seen(true) && Seen(false) !in p[k..];
      }
    }
  }

  /** The attempts counted are those since the start or the last re-arming. */
  lemma {:induction false} RoundAttemptsCount(p: seq<Event>, k: nat)
    requires k <= |p| && Rearmed !in p[k..] && (k == 0 || p[k - 1] == Rearmed)
    ensures RoundAttempts(p) == multiset(p[k..])[Attempt(true)] + multiset(p[k..])[Attempt(false)]
  {
    if k < |p| {
      var f, e := Front(p), Last(p);
      assert p[k..] == f[k..] + [e];
      RoundAttemptsCount(f, k);
    } else if k > 0 {
      assert Last(p) == Rearmed;
    }
  }

  function Push(events: seq<Event>, c: bool, e: Event): seq<Event> {
    if c then events + [e] else events
  }

  /** One event more, if the condition holds: what is in, that the order stays, and that it may be added after a history. */
  lemma Pushed(p: seq<Event>, events: seq<Event>, c: bool, e: Event)
    requires Ascending(events) && (forall x <- events :: Rank(x) < Rank(e))
    ensures var more := Push(events, c, e);
            && Ascending(more) && Push(p + events, c, e) == p + more
            && (forall x :: x in more <==> x in events || (c && x == e))
            && Stopped(more) == if c then e.Exit? else Stopped(events)
  {
    forall i | 0 <= i < |events| ensures events[i] in events {
    }
    assert p + events + [e] == p + (events + [e]);
  }

  lemma TriedSteps(p: seq<Event>, b: Beat)
    ensures var held := RoundNotices(p) > 0;
            var tries := b.present && (!held || PeerAbsent(p));
            var armed := Push(Push(p, true, Seen(b.present)), tries && held, Rearmed);
            Tried(p, b) == Push(Push(armed, tries, Attempt(b.ok)), tries && b.ok, Exit)
  {
    hide RoundNotices, PeerAbsent;
  }

  lemma LookSteps(p: seq<Event>, b: Beat)
    requires b.mayRun && !b.taken
    ensures var gives := RoundAttempts(p) >= 5 && RoundNotices(p) == 0;
            var held := gives || RoundNotices(p) > 0;
            var tries := b.present && (!held || PeerAbsent(p));
            var w := Wait(JitterSecs(BackoffSecs(RoundAttempts(p) + 1), b.r));
            var looked := Push(Push(Push(p, gives, Notice), true, w), true, Seen(b.present));
            Beaten(p, b) ==
            Push(Push(Push(looked, tries && held, Rearmed), tries, Attempt(b.ok)), tries && b.ok, Exit)
  {
    hide RoundAttempts, RoundNotices, PeerAbsent, JitterSecs, BackoffSecs, Tried;
    var p1 := Push(p, RoundAttempts(p) >= 5 && RoundNotices(p) == 0, Notice);
    var w := Wait(JitterSecs(BackoffSecs(RoundAttempts(p) + 1), b.r));
    Snoc(p, Notice);
    Snoc(p1, w);
    TriedSteps(p1 + [w], b);
  }

  /** The events of a beat that waits and then looks. */
  lemma LookAdds(p: seq<Event>, b: Beat) returns (events: seq<Event>)
    requires b.mayRun && !b.taken
    ensures var gives := RoundAttempts(p) >= 5 && RoundNotices(p) == 0;
            var held := gives || RoundNotices(p) > 0;
            var tries := b.present && (!held || PeerAbsent(p));
            var w := Wait(JitterSecs(BackoffSecs(RoundAttempts(p) + 1), b.r));
            && Beaten(p, b) == p + events && events != [] && Ascending(events) && Stopped(events) == (tries && b.ok)
            && (forall e :: e in events <==>
                  (e == Notice && gives) || e == w || e == Seen(b.present) || (e == Rearmed && tries && held) ||
                  (e == Attempt(b.ok) && tries) || (e == Exit && tries && b.ok))
  {
    hide RoundAttempts, RoundNotices, PeerAbsent, JitterSecs, BackoffSecs, Push, Beaten, Ascending, Stopped;
    LookSteps(p, b);
    var gives := RoundAttempts(p) >= 5 && RoundNotices(p) == 0;
    var held := gives || RoundNotices(p) > 0;
    var tries := b.present && (!held || PeerAbsent(p));
    var w := Wait(JitterSecs(BackoffSecs(RoundAttempts(p) + 1), b.r));
    assert p + [] == p && Ascending([]) by { NothingAscends(); }
    events := [];
    Pushed(p, events, gives, Notice);
    events := Push(events, gives, Notice);
    Pushed(p, events, true, w);
    events := Push(events, true, w);
    Pushed(p, events, true, Seen(b.present));
    events := Push(events, true, Seen(b.present));
    Pushed(p, events, tries && held, Rearmed);
    events := Push(events, tries && held, Rearmed);
    Pushed(p, events, tries, Attempt(b.ok));
    events := Push(events, tries, Attempt(b.ok));
    Pushed(p, events, tries && b.ok, Exit);
    events := Push(events, tries && b.ok, Exit);
    assert w in events;
  }

  lemma LookShows(p: seq<Event>, b: Beat)
    requires b.mayRun && !b.taken
    ensures p <= Beaten(p, b) && BeatShows(p, Beaten(p, b)[|p|..], b)
    ensures Stopped(Beaten(p, b)) <==> Exit in Beaten(p, b)[|p|..]
  {
    hide RoundAttempts, RoundNotices, PeerAbsent, JitterSecs, BackoffSecs, NoticeOpen, LastSeenAbsent;
    hide Beaten, Ascending, Stopped;
    NoticeOpenIff(p);
    LastSeenAbsentIff(p);
    var events := LookAdds(p, b);
    assert (p + events)[|p|..] == events;
    StoppedAfter(p, events);
  }

  lemma NothingAscends()
    ensures Ascending([])
  {
  }

  lemma StoppedAfter(p: seq<Event>, events: seq<Event>)
    requires events != []
    ensures Stopped(p + events) == Stopped(events)
  {
  }

  lemma TakenSteps(p: seq<Event>, b: Beat)
    requires b.mayRun && b.taken
    ensures var gives := RoundAttempts(p) >= 5 && RoundNotices(p) == 0;
            var w := Wait(JitterSecs(BackoffSecs(RoundAttempts(p) + 1), b.r));
            Beaten(p, b) == Push(Push(Push(p, gives, Notice), true, w), true, Exit)
  {
    hide RoundAttempts, RoundNotices, JitterSecs, BackoffSecs;
    Snoc(p, Notice);
  }

  /** A beat that the guard after the wait ends. */
  lemma TakenShows(p: seq<Event>, b: Beat)
    requires b.mayRun && b.taken
    ensures p <= Beaten(p, b) && BeatShows(p, Beaten(p, b)[|p|..], b)
    ensures Stopped(Beaten(p, b)) && Exit in Beaten(p, b)[|p|..]
  {
    hide RoundAttempts, RoundNotices, PeerAbsent, JitterSecs, BackoffSecs, NoticeOpen, LastSeenAbsent;
    hide Push, Beaten, Ascending, Stopped;
    NoticeOpenIff(p);
    TakenSteps(p, b);
    var gives := RoundAttempts(p) >= 5 && RoundNotices(p) == 0;
    var w := Wait(JitterSecs(BackoffSecs(RoundAttempts(p) + 1), b.r));
    assert p + [] == p && Ascending([]) by { NothingAscends(); }
    var events := [];
    Pushed(p, events, gives, Notice);
    events := Push(events, gives, Notice);
    Pushed(p, events, true, w);
    events := Push(events, true, w);
    Pushed(p, events, true, Exit);
    events := Push(events, true, Exit);
    assert Exit in events && (p + events)[|p|..] == events;
    StoppedAfter(p, events);
  }

  lemma BeatenShows(p: seq<Event>, b: Beat)
    ensures p <= Beaten(p, b) && BeatShows(p, Beaten(p, b)[|p|..], b)
    ensures Stopped(Beaten(p, b)) <==> Exit in Beaten(p, b)[|p|..]
  {
    if !b.mayRun {
      hide RoundAttempts, NoticeOpen, LastSeenAbsent;
      assert Beaten(p, b)[|p|..] == [Exit];
    } else if b.taken {
      TakenShows(p, b);
    } else {
      LookShows(p, b);
    }
  }

  lemma {:induction false} StoryTold(p: seq<Event>, beats: seq<Beat>) returns (marks: seq<nat>)
    requires !Stopped(p)
    ensures Told(p, Story(p, beats), marks, beats)
    decreases |beats|
  {
    hide BeatShows, Beaten, Stopped;
    marks := [|p|];
    if beats != [] {
      var q := Beaten(p, beats[0]);
      BeatenShows(p, beats[0]);
      if Stopped(q) {
        marks := [|p|, |q|];
        assert Story(p, beats) == Story(q, beats[1..]) == q;
        assert q[..|p|] == p && q[|p|..|q|] == q[|p|..];
        assert Stretch(q, marks[0], marks[1], beats[0], false);
      } else {
        var rest := StoryTold(q, beats[1..]);
        assert Story(p, beats) == Story(q, beats[1..]);
        ToldMore(p, q, Story(q, beats[1..]), rest, beats);
        marks := [|p|] + rest;
      }
    }
  }

  lemma ToldMore(p: seq<Event>, q: seq<Event>, trace: seq<Event>, rest: seq<nat>, beats: seq<Beat>)
    requires beats != [] && p <= q && BeatShows(p, q[|p|..], beats[0]) && Exit !in q[|p|..]
    requires Told(q, trace, rest, beats[1..])
    ensures Told(p, trace, [|p|] + rest, beats)
  {
    hide BeatShows, Stopped;
    var marks := [|p|] + rest;
    assert trace[..|p|] == p && trace[|p|..|q|] == q[|p|..];
    assert marks[1] == |q|;
    assert Stretch(trace, marks[0], marks[1], beats[0], true);
    hide Stretch;
    forall i | 0 < i < |marks| - 1
      ensures Stretch(trace, marks[i], marks[i + 1], beats[i], i < |marks| - 2)
    {
      var j := i - 1;
      assert marks[i] == rest[j] && marks[i + 1] == rest[j + 1] && beats[i] == beats[1..][j];
    }
  }

  /** A trace ends in `Exit` exactly if a beat may not run, is taken or connects. */
  predicate Ends(trace: seq<Event>, beats: seq<Beat>) {
    && (Stopped(trace) <==> Exit in trace)
    && (Exit in trace <==> (exists b <- beats :: !b.mayRun || b.taken) || Attempt(true) in trace)
  }

  lemma {:induction false} StoryEnds(p: seq<Event>, beats: seq<Beat>)
    requires Exit !in p && Attempt(true) !in p
    ensures Ends(Story(p, beats), beats)
    decreases |beats|
  {
    hide Beaten;
    if beats != [] {
      var b, q := beats[0], Beaten(p, beats[0]);
      BeatenShows(p, b);
      assert q == p + q[|p|..];
      if !Stopped(q) {
        StoryEnds(q, beats[1..]);
        assert beats == [b] + beats[1..];
      }
    }
  }

  /** The loop with its own variables. */
  method ReconnectLoop(beats: seq<Beat>) returns (trace: seq<Event>, ghost marks: seq<nat>)
    ensures trace == Story([], beats)
    ensures Told([], trace, marks, beats)
    ensures Ends(trace, beats)
  {
    hide RoundAttempts, RoundNotices, PeerAbsent, Stopped, BackoffSecs, JitterSecs, Told, Ends;
    assert !Stopped([]) by { EmptyHistory(); }
    marks := StoryTold([], beats);
    StoryEnds([], beats);
    var failures := 0;
    var gaveUp := false;
    var peerAbsent := true;
    trace := [];
    EmptyHistory();
    var i := 0;
    while i < |beats|
      invariant i <= |beats|
      invariant !Stopped(trace) && Story(trace, beats[i..]) == Story([], beats)
      invariant failures == RoundAttempts(trace) && gaveUp == (RoundNotices(trace) > 0) && peerAbsent == PeerAbsent(trace)
    {
      var b := beats[i];
      Unfold(trace, beats[i..]);
      assert beats[i..][1..] == beats[i + 1..];
      i := i + 1;
      if !b.mayRun {
        Halts(trace, beats[i..]);
        trace := trace + [Exit];
        return;
      }
      if GiveUp(failures) && !gaveUp {
        gaveUp := true;
        Snoc(trace, Notice);
        trace := trace + [Notice];
      }
      var delay := JitterSecs(BackoffSecs(failures + 1), b.r);
      Snoc(trace, Wait(delay));
      trace := trace + [Wait(delay)];
      if b.taken {
        Halts(trace, beats[i..]);
        trace := trace + [Exit];
        return;
      }
      assert Story(Tried(trace, b), beats[i..]) == Story([], beats);
      var rearm := gaveUp && b.present && peerAbsent;
      peerAbsent := !b.present;
      Snoc(trace, Seen(b.present));
      trace := trace + [Seen(b.present)];
      if !b.present || (gaveUp && !rearm) {
        continue;
      }
      if rearm {
        gaveUp := false;
        failures := 0;
        Snoc(trace, Rearmed);
        trace := trace + [Rearmed];
      }
      Snoc(trace, Attempt(b.ok));
      trace := trace + [Attempt(b.ok)];
      if b.ok {
        Halts(trace, beats[i..]);
        trace := trace + [Exit];
        return;
      }
      failures := failures + 1;
    }
  }

  lemma EmptyHistory()
    ensures RoundAttempts([]) == 0 && RoundNotices([]) == 0 && PeerAbsent([]) && !Stopped([])
  {
  }

  lemma Unfold(p: seq<Event>, beats: seq<Beat>)
    requires beats != [] && !Stopped(p)
    ensures Story(p, beats) == Story(Beaten(p, beats[0]), beats[1..])
  {
  }

  lemma Halts(p: seq<Event>, beats: seq<Beat>)
    ensures Story(p + [Exit], beats) == p + [Exit]
  {
    Snoc(p, Exit);
  }

  // ----- Bounds -----

  /** The last attempt connected. */
  predicate Won(p: seq<Event>) {
    p != [] && Last(p) == Attempt(true)
  }

  /** What may follow a history. */
  ghost predicate Allowed(p: seq<Event>, e: Event) {
    && !Stopped(p)
    && (Won(p) ==> e.Exit?)
    && match e
       case Notice => RoundAttempts(p) == 5 && RoundNotices(p) == 0
       case Wait(secs) =>
         var base := BackoffSecs(RoundAttempts(p) + 1);
         Round(Scaled(base, 0.8)) <= secs <= Round(Scaled(base, 1.2))
       case Seen(_) => true
       case Rearmed => RoundNotices(p) == 1 && AbsentSinceNotice(Front1(p)) && p != [] && Last(p) == Seen(true)
       case Attempt(_) => RoundAttempts(p) < 5 && p != [] && (Last(p) == Seen(true) || Last(p) == Rearmed)
       case Exit => true
  }

  function Front1(p: seq<Event>): seq<Event> {
    if p == [] then p else Front(p)
  }

  ghost predicate Good(p: seq<Event>) {
    p == [] || (Good(Front(p)) && Allowed(Front(p), Last(p)))
  }

  lemma GoodSnoc(p: seq<Event>, e: Event)
    requires Good(p) && Allowed(p, e)
    ensures Good(p + [e])
  {
    assert Front(p + [e]) == p && Last(p + [e]) == e;
  }

  /** Holds between beats. */
  ghost predicate Steady(p: seq<Event>) {
    Bounded(p) && !Won(p)
  }

  ghost predicate Bounded(p: seq<Event>) {
    && Good(p)
    && RoundAttempts(p) <= 5 && RoundNotices(p) <= 1
    && (RoundNotices(p) == 1 ==> RoundAttempts(p) == 5 && (PeerAbsent(p) ==> AbsentSinceNotice(p)))
    && (RoundAttempts(p) == 5 && RoundNotices(p) == 0 ==> !PeerAbsent(p))
  }

  lemma NoticeSteady(p: seq<Event>)
    requires Steady(p) && !Stopped(p) && RoundAttempts(p) >= 5 && RoundNotices(p) == 0
    ensures Steady(p + [Notice]) && !Stopped(p + [Notice])
  {
    hide RoundAttempts, RoundNotices, PeerAbsent, AbsentSinceNotice, Good, BackoffSecs, Round, Scaled;
    GoodSnoc(p, Notice);
    Snoc(p, Notice);
  }

  lemma WaitSteady(p: seq<Event>, r: real)
    requires Steady(p) && !Stopped(p)
    ensures var w := Wait(JitterSecs(BackoffSecs(RoundAttempts(p) + 1), r)); Steady(p + [w]) && !Stopped(p + [w])
  {
    hide RoundAttempts, RoundNotices, PeerAbsent, AbsentSinceNotice, Good, JitterSecs, BackoffSecs, Round;
    BackoffSequence(RoundAttempts(p) + 1);
    var base := BackoffSecs(RoundAttempts(p) + 1);
    JitterWithin(base, r);
    GoodSnoc(p, Wait(JitterSecs(base, r)));
    Snoc(p, Wait(JitterSecs(base, r)));
  }

  lemma ExitSteady(p: seq<Event>)
    requires Bounded(p) && !Stopped(p)
    ensures Steady(p + [Exit])
  {
    hide RoundAttempts, RoundNotices, PeerAbsent, AbsentSinceNotice, Good, BackoffSecs, Round, Scaled;
    GoodSnoc(p, Exit);
    Snoc(p, Exit);
  }

  lemma SeenSteady(p: seq<Event>, present: bool)
    requires Steady(p) && !Stopped(p) && (RoundAttempts(p) == 5 ==> RoundNotices(p) == 1)
    ensures Steady(p + [Seen(present)]) && !Stopped(p + [Seen(present)])
  {
    hide RoundAttempts, RoundNotices, PeerAbsent, AbsentSinceNotice, Good, BackoffSecs, Round, Scaled;
    GoodSnoc(p, Seen(present));
    Snoc(p, Seen(present));
  }

  /** Re-arming after the peer was seen present again starts a new round. */
  lemma RearmedSteady(p: seq<Event>)
    requires Steady(p) && !Stopped(p) && RoundNotices(p) == 1 && PeerAbsent(p)
    ensures var armed := p + [Seen(true)] + [Rearmed]; Steady(armed) && !Stopped(armed) && RoundAttempts(armed) == 0
    ensures var armed := p + [Seen(true)] + [Rearmed]; !PeerAbsent(armed) && RoundNotices(armed) == 0
  {
    hide RoundAttempts, RoundNotices, PeerAbsent, AbsentSinceNotice, Good, BackoffSecs, Round, Scaled;
    var seen := p + [Seen(true)];
    SeenSteady(p, true);
    Snoc(p, Seen(true));
    assert Last(seen) == Seen(true) && Front1(seen) == p;
    GoodSnoc(seen, Rearmed);
    Snoc(seen, Rearmed);
  }

  lemma AttemptSteady(p: seq<Event>, ok: bool)
    requires Steady(p) && !Stopped(p) && RoundAttempts(p) < 5 && RoundNotices(p) == 0 && !PeerAbsent(p)
    requires p != [] && (Last(p) == Seen(true) || Last(p) == Rearmed)
    ensures if ok then Steady(p + [Attempt(true)] + [Exit]) else Steady(p + [Attempt(false)])
  {
    hide RoundAttempts, RoundNotices, PeerAbsent, AbsentSinceNotice, Good, BackoffSecs, Round, Scaled;
    GoodSnoc(p, Attempt(ok));
    Snoc(p, Attempt(ok));
    if ok {
      ExitSteady(p + [Attempt(true)]);
    }
  }

  lemma TriedSteady(p: seq<Event>, b: Beat)
    requires Steady(p) && !Stopped(p) && (RoundAttempts(p) == 5 ==> RoundNotices(p) == 1)
    ensures Steady(Tried(p, b))
  {
    hide RoundAttempts, RoundNotices, PeerAbsent, Steady, Stopped;
    var seen := p + [Seen(b.present)];
    SeenSteady(p, b.present);
    Snoc(p, Seen(b.present));
    NoticesBounded(p);
    if b.present && (RoundNotices(p) == 0 || PeerAbsent(p)) {
      if RoundNotices(p) == 0 {
        AttemptSteady(seen, b.ok);
      } else {
        RearmedSteady(p);
        AttemptSteady(seen + [Rearmed], b.ok);
      }
    }
  }

  lemma NoticesBounded(p: seq<Event>)
    requires Steady(p)
    ensures RoundNotices(p) <= 1 && RoundAttempts(p) <= 5
  {
  }

  lemma BeatenSteady(p: seq<Event>, b: Beat)
    requires Steady(p) && !Stopped(p)
    ensures Steady(Beaten(p, b))
  {
    hide Tried, Good, JitterSecs, BackoffSecs, Stopped, AbsentSinceNotice, PeerAbsent, RoundAttempts, RoundNotices;
    if !b.mayRun {
      ExitSteady(p);
    } else {
      var p1 := if RoundAttempts(p) >= 5 && RoundNotices(p) == 0 then p + [Notice] else p;
      if p1 != p {
        NoticeSteady(p);
        Snoc(p, Notice);
      }
      WaitSteady(p1, b.r);
      var w := Wait(JitterSecs(BackoffSecs(RoundAttempts(p1) + 1), b.r));
      Snoc(p1, w);
      if b.taken {
        ExitSteady(p1 + [w]);
      } else {
        TriedSteady(p1 + [w], b);
      }
    }
  }

  lemma {:induction false} StorySteady(p: seq<Event>, beats: seq<Beat>)
    requires Steady(p)
    ensures Steady(Story(p, beats))
    decreases |beats|
  {
    if beats != [] && !Stopped(p) {
      hide Steady, Beaten;
      BeatenSteady(p, beats[0]);
      StorySteady(Beaten(p, beats[0]), beats[1..]);
    }
  }

  lemma {:induction false} GoodMeans(p: seq<Event>, k: nat)
    requires Good(p) && k < |p|
    ensures Allowed(p[..k], p[k])
  {
    if k == |p| - 1 {
      assert p[..k] == Front(p);
    } else {
      GoodMeans(Front(p), k);
      assert Front(p)[..k] == p[..k];
    }
  }

  /**
   Every trace, at every event: at most five attempts a round; the one notice of a round after exactly
   five, none of which connected; re-arming only once the peer was seen absent since the notice and then
   present; every wait within a fifth of the round's backoff, so between 2 and 36 seconds; nothing after
   the exit.
   */
  lemma EveryTraceIsBounded(beats: seq<Beat>, k: nat)
    requires k < |Story([], beats)|
    ensures var trace := Story([], beats);
            && Allowed(trace[..k], trace[k])
            && RoundAttempts(trace[..k + 1]) <= 5 && RoundNotices(trace[..k + 1]) <= 1
            && (trace[k].Wait? ==> 2 <= trace[k].secs <= 36)
  {
    hide Allowed, Story;
    var trace := Story([], beats);
    EmptyHistory();
    StorySteady([], beats);
    GoodMeans(trace, k);
    GoodBounds(trace, k + 1);
    if trace[k].Wait? {
      WaitBounds(trace[..k], trace[k].secs);
    }
  }

  lemma WaitBounds(p: seq<Event>, secs: int)
    requires Allowed(p, Wait(secs))
    ensures 2 <= secs <= 36
  {
    BackoffSequence(RoundAttempts(p) + 1);
    var base := BackoffSecs(RoundAttempts(p) + 1);
    RoundMonotone(1.6, Scaled(base, 0.8));
    RoundMonotone(Scaled(base, 1.2), 36.0);
    assert Round(1.6) == 2 && Round(36.0) == 36;
  }

  lemma {:induction false} GoodBounds(p: seq<Event>, k: nat)
    requires Good(p) && k <= |p|
    ensures RoundAttempts(p[..k]) <= 5 && RoundNotices(p[..k]) <= 1
  {
    if k > 0 {
      GoodBounds(p, k - 1);
      GoodMeans(p, k - 1);
      assert p[..k] == p[..k - 1] + [p[k - 1]];
      Snoc(p[..k - 1], p[k - 1]);
    }
  }
}
