/**
 Three wrong codes end a session and keep the peer out for a while. The acceptor's code check of one
 connection runs beside the cooldown table, which every handshake and every failure of any peer prunes.
 Times are milliseconds of the monotone clock, read once per lock region.
 */
module Cooldowns {
  import opened Prelude
  import opened PairingMachines

  type Fp = nat

  const COOLDOWN: nat := 300 * 1000

  // ----- The table -----

  type Expiry = map<Fp, nat>

  /** `retain(|_, e| *e > now)`. */
  function Pruned(t: Expiry, now: nat): Expiry {
    map fp | fp in t && t[fp] > now :: t[fp]
  }

  /** `record_cooldown`. */
  function Recorded(t: Expiry, fp: Fp, now: nat): Expiry {
    Pruned(t, now)[fp := now + COOLDOWN]
  }

  datatype Admission = Admit | Refuse(remainingSecs: nat)

  /** The check that opens both `handle_incoming` and `post_handshake`. */
  function Admitted(t: Expiry, fp: Fp, now: nat): Admission {
    if fp in Pruned(t, now) then Refuse((t[fp] - now) / 1000) else Admit
  }

  class CooldownTable {
    var cooldown: Expiry

    constructor ()
      ensures cooldown == map[]
    {
      cooldown := map[];
    }

    method RecordCooldown(fp: Fp, now: nat)
      modifies this
      ensures cooldown == Recorded(old(cooldown), fp, now)
    {
      cooldown := map f | f in cooldown && cooldown[f] > now :: cooldown[f];
      cooldown := cooldown[fp := now + COOLDOWN];
    }

    method CheckHandshake(fp: Fp, now: nat) returns (a: Admission)
      modifies this
      ensures cooldown == Pruned(old(cooldown), now) && a == Admitted(old(cooldown), fp, now)
    {
      cooldown := map f | f in cooldown && cooldown[f] > now :: cooldown[f];
      a := Admit;
      if fp in cooldown {
        var expires := cooldown[fp];
        if now < expires {
          a := Refuse((expires - now) / 1000);
        }
      }
    }
  }

  // ----- One acceptor session and the table over time -----

  datatype Phase =
    | Waiting(pending: Option<Code>)
    | Judging(machine: Option<Machine>)  // no machine once pairing is complete
    | Over                               // ended by the third wrong code

  datatype Event =
    | CodeArrives(code: Code)
    | GrantConsent(code: Code)
    | FailureOf(fp: Fp)                  // some other session of some peer fails out
    | HandshakeOf(fp: Fp)

  datatype Timed = Timed(at: nat, event: Event)

  /** `wrong` counts the codes of `peer` judged wrong; `endedAt` is the time of the third. */
  datatype Trial = Trial(peer: Fp, phase: Phase, trusted: bool, wrong: nat, endedAt: Option<nat>, clock: nat, table: Expiry)

  function Begin(peer: Fp, table: Expiry, now: nat): Trial {
    Trial(peer, Waiting(None), false, 0, None, now, table)
  }

  /** Judge a code against the machine and act on the outcome. */
  function Judge(s: Trial, m: Machine, code: Code, at: nat): Trial {
    var m' := Submitted(m, code);
    if VerifyCode(code, m.codeHash) then
      s.(phase := Judging(if s.trusted then Some(m') else None), trusted := true)
    else if FailedOut(m') then
      s.(phase := Over, wrong := s.wrong + 1, endedAt := Some(at), table := Recorded(s.table, s.peer, at))
    else
      s.(phase := Judging(Some(m')), wrong := s.wrong + 1)
  }

  function Happen(s0: Trial, t: Timed): Trial {
    var s := s0.(clock := t.at);
    match t.event
    case CodeArrives(code) =>
      (match s.phase
       case Waiting(_) => s.(phase := Waiting(Some(code)))
       case Judging(m) => if m.Some? then Judge(s, m.value, code, t.at) else s
       case Over => s)
    case GrantConsent(code) =>
      (match s.phase
       case Waiting(pending) =>
         var m := NewMachine(Sha256(code));
         if pending.Some? then Judge(s, m, pending.value, t.at) else s.(phase := Judging(Some(m)))
       case _ => s)
    case FailureOf(fp) => s.(table := Recorded(s.table, fp, t.at))
    case HandshakeOf(fp) => s.(table := Pruned(s.table, t.at))
  }

  function HappenAll(s: Trial, ts: seq<Timed>): Trial
    decreases |ts|
  {
    if ts == [] then s else HappenAll(Happen(s, ts[0]), ts[1..])
  }

  predicate InOrder(now: nat, ts: seq<Timed>)
    decreases |ts|
  {
    ts == [] || (now <= ts[0].at && InOrder(ts[0].at, ts[1..]))
  }

  /** The machine's counter is the number of wrong codes; the third one ends it and is on record. */
  ghost predicate Fair(s: Trial) {
    && (s.phase.Waiting? ==> s.wrong == 0)
    && (s.phase.Judging? ==> s.wrong <= 2 && (s.phase.machine.Some? ==> s.phase.machine.value.fails == s.wrong))
    && (s.phase.Over? <==> s.wrong == 3)
    && (s.phase.Over? <==> s.endedAt.Some?)
    && (s.endedAt.Some? ==> s.endedAt.value <= s.clock && KeptOut(s.table, s.peer, s.endedAt.value, s.clock))
  }

  /** Until the five minutes are over the entry is there, and expires no sooner. */
  predicate KeptOut(t: Expiry, fp: Fp, since: nat, now: nat) {
    now < since + COOLDOWN ==> fp in t && t[fp] >= since + COOLDOWN
  }

  lemma HappenIsFair(s: Trial, t: Timed)
    requires Fair(s) && s.clock <= t.at
    ensures Fair(Happen(s, t))
  {
    if s.endedAt.Some? {
      assert KeptOut(Pruned(s.table, t.at), s.peer, s.endedAt.value, t.at);
    }
  }

  lemma {:induction false} RunsAreFair(s: Trial, ts: seq<Timed>)
    requires Fair(s) && InOrder(s.clock, ts)
    ensures Fair(HappenAll(s, ts)) && HappenAll(s, ts).peer == s.peer
    ensures s.endedAt.Some? ==> HappenAll(s, ts).endedAt == s.endedAt
    decreases |ts|
  {
    if ts != [] {
      HappenIsFair(s, ts[0]);
      RunsAreFair(Happen(s, ts[0]), ts[1..]);
    }
  }

  /**
   However codes, the grant, and other peers' failures and handshakes are mixed, at most three codes are
   judged wrong, a code stored before consent included; the third is what ends the session.
   */
  lemma AtMostThreeWrongCodes(peer: Fp, table: Expiry, now: nat, ts: seq<Timed>)
    requires InOrder(now, ts)
    ensures var s := HappenAll(Begin(peer, table, now), ts);
            s.wrong <= 3 && (s.wrong == 3 <==> s.phase.Over?) && (s.phase.Over? <==> s.endedAt.Some?)
  {
    RunsAreFair(Begin(peer, table, now), ts);
  }

  /** Every handshake of that peer begun in the five minutes after the third wrong code is refused. */
  lemma RefusedForFiveMinutes(peer: Fp, table: Expiry, begun: nat, ts: seq<Timed>, now: nat)
    requires InOrder(begun, ts)
    requires var s := HappenAll(Begin(peer, table, begun), ts);
             s.endedAt.Some? && s.clock <= now && now < s.endedAt.value + COOLDOWN
    ensures Admitted(HappenAll(Begin(peer, table, begun), ts).table, peer, now).Refuse?
  {
    RunsAreFair(Begin(peer, table, begun), ts);
  }

  /** The bar is reached: three wrong codes after a grant do end the session, whatever was recorded before. */
  lemma ThreeWrongCodesEndIt(s: Trial, code: Code, a: Code, b: Code, c: Code, at: nat)
    requires Fair(s) && s.phase == Waiting(None) && s.clock <= at && code !in {a, b, c}
    ensures var ts := [Timed(at, GrantConsent(code)), Timed(at, CodeArrives(a)),
                       Timed(at, CodeArrives(b)), Timed(at, CodeArrives(c))];
            HappenAll(s, ts).phase.Over? && HappenAll(s, ts).endedAt == Some(at)
  {
    hide Recorded;
    var t1, t2 := Timed(at, GrantConsent(code)), Timed(at, CodeArrives(a));
    var t3, t4 := Timed(at, CodeArrives(b)), Timed(at, CodeArrives(c));
    FourHappen(s, t1, t2, t3, t4);
    var s1 := Happen(s, t1);
    var s2 := Happen(s1, t2);
    assert s1.phase == Judging(Some(NewMachine(Sha256(code)))) && s2.phase.Judging? && s2.phase.machine.value.fails == 1;
  }

  /** Who is refused, and for how long yet: exactly a peer whose time is not over, in whole seconds cut off. */
  lemma RefusedIff(t: Expiry, fp: Fp, now: nat)
    ensures var a := Admitted(t, fp, now);
            && (a.Refuse? <==> fp in t && now < t[fp])
            && (a.Refuse? ==> now + 1000 * a.remainingSecs <= t[fp] < now + 1000 * a.remainingSecs + 1000)
  {
  }

  /** A failure keeps its own peer out for exactly 300 seconds from then, and no other peer. */
  lemma RecordedLasts(t: Expiry, fp: Fp, at: nat, other: Fp, now: nat)
    requires at <= now
    ensures Admitted(Recorded(t, fp, at), fp, now).Refuse? <==> now < at + 300_000
    ensures other != fp ==> Admitted(Recorded(t, fp, at), other, now) == Admitted(t, other, now)
  {
  }

  /** The grant judges a stored code at once, as the first of the three, and leaves the session open. */
  lemma GrantJudgesStored(s: Trial, stored: Code, code: Code, at: nat)
    requires s.phase == Waiting(Some(stored))
    ensures var s' := Happen(s, Timed(at, GrantConsent(code)));
            && s'.phase.Judging? && s'.table == s.table
            && s'.wrong == s.wrong + (if stored == code then 0 else 1)
            && (s'.trusted <==> s.trusted || stored == code)
            && (stored != code ==> s'.phase == Judging(Some(Machine(Sha256(code), false, 1))))
  {
  }

  lemma FourHappen(s: Trial, t1: Timed, t2: Timed, t3: Timed, t4: Timed)
    ensures HappenAll(s, [t1, t2, t3, t4]) == Happen(Happen(Happen(Happen(s, t1), t2), t3), t4)
  {
    hide Happen;
    assert [t1, t2, t3, t4][1..] == [t2, t3, t4] && [t2, t3, t4][1..] == [t3, t4] && [t3, t4][1..] == [t4] && [t4][1..] == [];
    var s1 := Happen(s, t1);
    var s2 := Happen(s1, t2);
    assert HappenAll(Happen(Happen(s2, t3), t4), []) == Happen(Happen(s2, t3), t4);
    assert HappenAll(s2, [t3, t4]) == HappenAll(Happen(s2, t3), [t4]);
    assert HappenAll(s1, [t2, t3, t4]) == HappenAll(s2, [t3, t4]);
  }
}
