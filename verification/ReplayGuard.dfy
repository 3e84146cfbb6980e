/**
 The replay guard of device discovery: a table of nonces with their time stamps, pruned to a window and
 bounded in size, behind the checks of `verify_and_parse`. JSON parsing and Ed25519 verification
 (RFC 8032, section 5.1) are parameters. Times and stamps are Unix milliseconds.
 */
module ReplayGuards {
  import opened Prelude

  const TOLERANCE: nat := 10 * 60 * 1000
  const CAPACITY: nat := 4096

  type Nonce = seq<byte>

  datatype Packet = Packet(nonce: Nonce, ts: nat, pubkey: seq<byte>, name: string)

  datatype Failure = BadSignature | Stale | Replay | Malformed | Overflow

  /** What the surrounding libraries decide: parsing, key validity, and signature of a message under a key. */
  datatype Checks = Checks(parse: seq<byte> -> Option<Packet>,
                           validKey: seq<byte> -> bool,
                           verifies: (seq<byte>, seq<byte>, seq<byte>) -> bool)

  type Nonces = map<Nonce, nat>

  function Cutoff(now: nat): nat {
    SatSub(now, TOLERANCE)
  }

  /** `retain(|_, last_ts| *last_ts > cutoff)`. */
  function Retained(m: Nonces, now: nat): Nonces {
    map n | n in m && m[n] > Cutoff(now) :: m[n]
  }

  /** `check_nonce`. */
  function Checked(m: Nonces, nonce: Nonce, ts: nat, now: nat): (Option<Failure>, Nonces) {
    var r := Retained(m, now);
    if nonce in r && r[nonce] == ts then (Some(Replay), r)
    else if |r| >= CAPACITY then (Some(Overflow), r)
    else (None, r[nonce := ts])
  }

  /** A packet whose bytes parse and whose signature holds, or the reason why not. */
  function Authentic(c: Checks, bytes: seq<byte>): Result<Packet, Failure> {
    if |bytes| < 64 then Err(Malformed) else
    var json, sig := bytes[..|bytes| - 64], bytes[|bytes| - 64..];
    var pkt := c.parse(json);
    if pkt.None? then Err(Malformed)
    else if !c.validKey(pkt.value.pubkey) then Err(BadSignature)
    else if !c.verifies(pkt.value.pubkey, json, sig) then Err(BadSignature)
    else Ok(pkt.value)
  }

  function Apart(a: nat, b: nat): nat {
    if a > b then a - b else b - a
  }

  /** `verify_and_parse`: nothing touches the guard before the packet is authentic and timely. */
  function Accepted(c: Checks, m: Nonces, bytes: seq<byte>, now: nat): (Result<Packet, Failure>, Nonces) {
    var a := Authentic(c, bytes);
    if a.Err? then (a, m)
    else if Apart(now, a.value.ts) > TOLERANCE then (Err(Stale), m)
    else
      var (f, m') := Checked(m, a.value.nonce, a.value.ts, now);
      (if f.Some? then Err(f.value) else a, m')
  }

  class ReplayGuard {
    var nonces: Nonces

    constructor ()
      ensures nonces == map[]
    {
      nonces := map[];
    }

    method CheckNonce(nonce: Nonce, ts: nat, now: nat) returns (failure: Option<Failure>)
      modifies this
      ensures (failure, nonces) == Checked(old(nonces), nonce, ts, now)
    {
      var cutoff := SatSub(now, TOLERANCE);
      nonces := map n | n in nonces && nonces[n] > cutoff :: nonces[n];
      if nonce in nonces && nonces[nonce] == ts {
        return Some(Replay);
      }
      if |nonces| >= CAPACITY {
        ghost var once := nonces;
        nonces := map n | n in nonces && nonces[n] > cutoff :: nonces[n];
        assert nonces == once;
        if |nonces| >= CAPACITY {
          return Some(Overflow);
        }
      }
      nonces := nonces[nonce := ts];
      failure := None;
    }

    method VerifyAndParse(c: Checks, bytes: seq<byte>, now: nat) returns (r: Result<Packet, Failure>)
      modifies this
      ensures (r, nonces) == Accepted(c, old(nonces), bytes, now)
      ensures r.Err? && !r.error.Replay? && !r.error.Overflow? ==> nonces == old(nonces)
      ensures r == Err(Malformed) <==> |bytes| < 64 || c.parse(bytes[..|bytes| - 64]).None?
      ensures r.Ok? ==>
              && |bytes| >= 64 && c.parse(bytes[..|bytes| - 64]) == Some(r.value) && c.validKey(r.value.pubkey)
              && c.verifies(r.value.pubkey, bytes[..|bytes| - 64], bytes[|bytes| - 64..])
              && r.value.ts <= now + 600_000 && now <= r.value.ts + 600_000
    {
      if |bytes| < 64 {
        return Err(Malformed);
      }
      var json, sig := bytes[..|bytes| - 64], bytes[|bytes| - 64..];
      var parsed := c.parse(json);
      if parsed.None? {
        return Err(Malformed);
      }
      var pkt := parsed.value;
      if !c.validKey(pkt.pubkey) || !c.verifies(pkt.pubkey, json, sig) {
        return Err(BadSignature);
      }
      var diff := if now > pkt.ts then now - pkt.ts else pkt.ts - now;
      if diff > TOLERANCE {
        return Err(Stale);
      }
      var failure := CheckNonce(pkt.nonce, pkt.ts, now);
      r := if failure.Some? then Err(failure.value) else Ok(pkt);
    }
  }

  // ----- Runs -----

  datatype Arrival = Arrival(bytes: seq<byte>, now: nat)

  /** The guard, what it has accepted so far, and the time of the last arrival. */
  datatype Guard = Guard(nonces: Nonces, accepted: set<(Nonce, nat)>, clock: nat)

  const Empty: Guard := Guard(map[], {}, 0)

  function After(c: Checks, g: Guard, a: Arrival): Guard {
    var (r, m) := Accepted(c, g.nonces, a.bytes, a.now);
    Guard(m, if r.Ok? then g.accepted + {(r.value.nonce, r.value.ts)} else g.accepted, a.now)
  }

  function AfterAll(c: Checks, g: Guard, arrivals: seq<Arrival>): Guard
    decreases |arrivals|
  {
    if arrivals == [] then g else AfterAll(c, After(c, g, arrivals[0]), arrivals[1..])
  }

  predicate InOrder(now: nat, arrivals: seq<Arrival>)
    decreases |arrivals|
  {
    arrivals == [] || (now <= arrivals[0].now && InOrder(arrivals[0].now, arrivals[1..]))
  }

  /** Honest senders use a nonce with one time stamp only. */
  predicate OneStamp(c: Checks, stamp: Nonce -> nat, bytes: seq<byte>) {
    var a := Authentic(c, bytes);
    a.Ok? ==> a.value.ts == stamp(a.value.nonce)
  }

  /**
   Bounded; only accepted stamps, none further ahead of the clock than the tolerance; and every accepted
   one that the window still covers.
   */
  ghost predicate Sound(g: Guard, stamp: Nonce -> nat) {
    && |g.nonces| <= CAPACITY
    && (forall n | n in g.nonces :: (n, g.nonces[n]) in g.accepted)
    && (forall n, t | (n, t) in g.accepted :: t == stamp(n) && t <= g.clock + TOLERANCE)
    && (forall n, t | (n, t) in g.accepted && t > Cutoff(g.clock) :: n in g.nonces && g.nonces[n] == t)
  }

  lemma RetainedIsSmaller(m: Nonces, now: nat)
    ensures |Retained(m, now)| <= |m|
  {
    var r := Retained(m, now);
    assert r.Keys <= m.Keys;
    SmallerSet(r.Keys, m.Keys);
  }

  lemma InsertSize(m: Nonces, n: Nonce, t: nat)
    ensures |m[n := t]| <= |m| + 1
  {
    assert m[n := t].Keys == m.Keys + {n};
    if n in m { assert m.Keys + {n} == m.Keys; }
  }

  lemma AfterIsSound(c: Checks, g: Guard, a: Arrival, stamp: Nonce -> nat)
    requires Sound(g, stamp) && g.clock <= a.now && OneStamp(c, stamp, a.bytes)
    ensures Sound(After(c, g, a), stamp)
  {
    RetainedIsSmaller(g.nonces, a.now);
    var p := Authentic(c, a.bytes);
    if p.Ok? {
      InsertSize(Retained(g.nonces, a.now), p.value.nonce, p.value.ts);
    }
  }

  lemma {:induction false} RunsAreSound(c: Checks, g: Guard, arrivals: seq<Arrival>, stamp: Nonce -> nat)
    requires Sound(g, stamp) && InOrder(g.clock, arrivals)
    requires forall a <- arrivals :: OneStamp(c, stamp, a.bytes)
    ensures Sound(AfterAll(c, g, arrivals), stamp)
    decreases |arrivals|
  {
    if arrivals != [] {
      AfterIsSound(c, g, arrivals[0], stamp);
      RunsAreSound(c, After(c, g, arrivals[0]), arrivals[1..], stamp);
    }
  }

  /** The table stays within its bound on every run, whatever arrives and however nonces are reused. */
  lemma {:induction false} NeverOverCapacity(c: Checks, g: Guard, arrivals: seq<Arrival>)
    requires |g.nonces| <= CAPACITY
    ensures |AfterAll(c, g, arrivals).nonces| <= CAPACITY
    decreases |arrivals|
  {
    if arrivals != [] {
      var a := arrivals[0];
      RetainedIsSmaller(g.nonces, a.now);
      var p := Authentic(c, a.bytes);
      if p.Ok? {
        InsertSize(Retained(g.nonces, a.now), p.value.nonce, p.value.ts);
      }
      NeverOverCapacity(c, After(c, g, a), arrivals[1..]);
    }
  }

  /**
   What an authentic packet meets after a run in which time does not go back and nonces keep their stamps.
   One accepted before is refused as a replay exactly while its stamp is above the cut-off, and is never
   accepted above it; one not accepted before passes whenever there is room.
   */
  lemma Verdict(c: Checks, arrivals: seq<Arrival>, stamp: Nonce -> nat, bytes: seq<byte>, now: nat)
    requires InOrder(0, arrivals) && (forall a <- arrivals :: OneStamp(c, stamp, a.bytes))
    requires OneStamp(c, stamp, bytes) && Authentic(c, bytes).Ok? && AfterAll(c, Empty, arrivals).clock <= now
    ensures var g := AfterAll(c, Empty, arrivals);
            var p := Authentic(c, bytes).value;
            var r := Accepted(c, g.nonces, bytes, now).0;
            var seen := (p.nonce, p.ts) in g.accepted;
            var full := |Retained(g.nonces, now)| >= CAPACITY;
            r == if Apart(now, p.ts) > TOLERANCE then Err(Stale)
                 else if seen && p.ts > Cutoff(now) then Err(Replay)
                 else if full then Err(Overflow)
                 else Ok(p)
  {
    RunsAreSound(c, Empty, arrivals, stamp);
    var g := AfterAll(c, Empty, arrivals);
    var p := Authentic(c, bytes).value;
    assert p.nonce in Retained(g.nonces, now) ==> (p.nonce, g.nonces[p.nonce]) in g.accepted;
  }

  /** A packet with a positive stamp gets through a second time only in the very last millisecond of its window. */
  lemma ReplayOnlyAtTheEdge(c: Checks, arrivals: seq<Arrival>, stamp: Nonce -> nat, bytes: seq<byte>, now: nat)
    requires InOrder(0, arrivals) && (forall a <- arrivals :: OneStamp(c, stamp, a.bytes))
    requires OneStamp(c, stamp, bytes) && Authentic(c, bytes).Ok? && AfterAll(c, Empty, arrivals).clock <= now
    requires var p := Authentic(c, bytes).value; p.ts > 0 && (p.nonce, p.ts) in AfterAll(c, Empty, arrivals).accepted
    ensures var g := AfterAll(c, Empty, arrivals);
            Accepted(c, g.nonces, bytes, now).0.Ok? <==>
            now == Authentic(c, bytes).value.ts + TOLERANCE && |Retained(g.nonces, now)| < CAPACITY
  {
    Verdict(c, arrivals, stamp, bytes, now);
  }

  /** And there it does: eviction is strict where the window is inclusive. */
  lemma EdgeIsReplayed(c: Checks, bytes: seq<byte>)
    requires Authentic(c, bytes).Ok?
    ensures var ts := Authentic(c, bytes).value.ts;
            var g := AfterAll(c, Empty, [Arrival(bytes, ts)]);
            g.accepted == {(Authentic(c, bytes).value.nonce, ts)} && Accepted(c, g.nonces, bytes, ts + TOLERANCE).0.Ok?
  {
    var p := Authentic(c, bytes).value;
    var first := Arrival(bytes, p.ts);
    assert Retained(map[], p.ts) == map[];
    assert After(c, Empty, first) == Guard(map[p.nonce := p.ts], {(p.nonce, p.ts)}, p.ts);
    assert [first][1..] == [];
    assert AfterAll(c, Empty, [first]) == After(c, Empty, first);
    assert Retained(map[p.nonce := p.ts], p.ts + TOLERANCE) == map[];
  }

  /**
   An entry recorded at time `t` is out of the table after any check at `t + 2 * TOLERANCE` or later,
   unless that check has just recorded the same nonce with the same stamp anew.
   */
  lemma RecordedEntriesExpire(c: Checks, m: Nonces, bytes: seq<byte>, t: nat, later: Nonces, nonce: Nonce, ts: nat, now: nat)
    requires Accepted(c, m, bytes, t).0.Ok? && now >= t + 2 * TOLERANCE
    ensures var p := Authentic(c, bytes).value;
            var (f, after) := Checked(later, nonce, ts, now);
            p.nonce in after && after[p.nonce] == p.ts ==> f.None? && nonce == p.nonce && ts == p.ts
  {
  }

  /**
   Every outcome of a datagram, on its octets and the clock alone: it is malformed exactly if it is too short
   for a signature or what precedes the signature does not parse; of the rest, its signature is bad exactly if
   its key is invalid or does not verify that very part; of the signed ones it is stale exactly if its stamp is
   more than ten minutes off; and the guard decides, as on nonce and stamp alone, about all others.
   */
  lemma OutcomeByParts(c: Checks, m: Nonces, bytes: seq<byte>, now: nat)
    ensures var (r, m') := Accepted(c, m, bytes, now);
            && (r == Err(Malformed) <==> |bytes| < 64 || c.parse(bytes[..|bytes| - 64]).None?)
            && (|bytes| >= 64 && c.parse(bytes[..|bytes| - 64]).Some? ==>
                var json, sig := bytes[..|bytes| - 64], bytes[|bytes| - 64..];
                var p := c.parse(json).value;
                var signed := c.validKey(p.pubkey) && c.verifies(p.pubkey, json, sig);
                var timely := p.ts <= now + 600_000 && now <= p.ts + 600_000;
                && (r == Err(BadSignature) <==> !signed)
                && (r == Err(Stale) <==> signed && !timely)
                && (r in {Ok(p), Err(Replay), Err(Overflow)} <==> signed && timely)
                && (signed && timely ==>
                    (r == Ok(p) <==> Checked(m, p.nonce, p.ts, now).0.None?) && m' == Checked(m, p.nonce, p.ts, now).1))
  {
  }

  /** Whatever a run has accepted came in a datagram with a valid signature and a stamp timely on its arrival. */
  lemma {:induction false} AcceptedWasSigned(c: Checks, g: Guard, arrivals: seq<Arrival>, nonce: Nonce, ts: nat)
    returns (k: nat)
    requires (nonce, ts) in AfterAll(c, g, arrivals).accepted && (nonce, ts) !in g.accepted
    ensures k < |arrivals| && |arrivals[k].bytes| >= 64
    ensures var bytes, now := arrivals[k].bytes, arrivals[k].now;
            var json, sig := bytes[..|bytes| - 64], bytes[|bytes| - 64..];
            && c.parse(json).Some?
            && var p := c.parse(json).value;
               && p.nonce == nonce && p.ts == ts && c.validKey(p.pubkey) && c.verifies(p.pubkey, json, sig)
               && ts <= now + 600_000 && now <= ts + 600_000
    decreases |arrivals|
  {
    var next := After(c, g, arrivals[0]);
    if (nonce, ts) in next.accepted {
      k := 0;
    } else {
      k := AcceptedWasSigned(c, next, arrivals[1..], nonce, ts);
      k := k + 1;
    }
  }

  /** Packets refused for their form, signature or time leave no trace. */
  lemma RefusedUnseen(c: Checks, m: Nonces, bytes: seq<byte>, now: nat)
    ensures var (r, m') := Accepted(c, m, bytes, now);
            r.Err? && !r.error.Replay? && !r.error.Overflow? ==> m' == m
    ensures var (r, m') := Accepted(c, m, bytes, now);
            r.Err? && (r.error.Replay? || r.error.Overflow?) ==> m' == Retained(m, now)
  {
  }
}
