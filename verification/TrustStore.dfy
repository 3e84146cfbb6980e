/** The trust list of `identity.rs`: a vector searched from the front. */
module TrustStores {
  type Fp = nat

  datatype Peer = Peer(fp: Fp, name: string, alias: string, pairedAt: nat)

  /** `iter().position(|p| p.fingerprint == fp)`, the length standing for none. */
  function Position(peers: seq<Peer>, fp: Fp): (i: nat)
    ensures i <= |peers|
    ensures i < |peers| ==> peers[i].fp == fp
    ensures forall j | 0 <= j < i :: peers[j].fp != fp
  {
    if peers == [] then 0
    else if peers[0].fp == fp then 0
    else 1 + Position(peers[1..], fp)
  }

  predicate Trusts(peers: seq<Peer>, fp: Fp) {
    exists p | p in peers :: p.fp == fp
  }

  /** How often a fingerprint occurs; a file edited from outside may hold it twice. */
  function Count(peers: seq<Peer>, fp: Fp): nat {
    if peers == [] then 0 else (if peers[0].fp == fp then 1 else 0) + Count(peers[1..], fp)
  }

  function Upserted(peers: seq<Peer>, p: Peer): seq<Peer> {
    var i := Position(peers, p.fp);
    if i < |peers| then peers[i := p] else peers + [p]
  }

  function Removed(peers: seq<Peer>, fp: Fp): seq<Peer> {
    var i := Position(peers, fp);
    if i < |peers| then peers[..i] + peers[i + 1..] else peers
  }

  class TrustStore {
    var peers: seq<Peer>

    constructor (peers: seq<Peer>)
      ensures this.peers == peers
    {
      this.peers := peers;
    }

    method Find(fp: Fp) returns (i: nat)
      ensures i == Position(peers, fp)
    {
      i := 0;
      while i < |peers| && peers[i].fp != fp
        invariant i <= |peers| && Position(peers, fp) == i + Position(peers[i..], fp)
      {
        i := i + 1;
      }
    }

    method IsTrusted(fp: Fp) returns (yes: bool)
      ensures yes == Trusts(peers, fp)
    {
      var i := Find(fp);
      yes := i < |peers|;
      assert forall p | p in peers :: exists j | 0 <= j < |peers| :: peers[j] == p;
    }

    method Upsert(p: Peer)
      modifies this
      ensures peers == Upserted(old(peers), p)
    {
      var i := Find(p.fp);
      peers := if i < |peers| then peers[i := p] else peers + [p];
    }

    method Remove(fp: Fp) returns (removed: bool)
      modifies this
      ensures peers == Removed(old(peers), fp) && removed == Trusts(old(peers), fp)
    {
      removed := IsTrusted(fp);
      var i := Find(fp);
      if i < |peers| {
        peers := peers[..i] + peers[i + 1..];
      }
      assert removed ==> exists p | p in old(peers) :: p.fp == fp;
    }
  }

  lemma {:induction false} TrustsIsCount(peers: seq<Peer>, fp: Fp)
    ensures Trusts(peers, fp) <==> Count(peers, fp) > 0
  {
    if peers != [] {
      TrustsIsCount(peers[1..], fp);
      assert peers == [peers[0]] + peers[1..];
    }
  }

  lemma {:induction false} CountJoins(a: seq<Peer>, b: seq<Peer>, fp: Fp)
    ensures Count(a + b, fp) == Count(a, fp) + Count(b, fp)
  {
    if a == [] {
      assert a + b == b;
    } else {
      CountJoins(a[1..], b, fp);
      assert (a + b)[1..] == a[1..] + b;
    }
  }

  lemma CountAround(peers: seq<Peer>, i: nat, fp: Fp)
    requires i < |peers|
    ensures Count(peers, fp) == Count(peers[..i], fp) + (if peers[i].fp == fp then 1 else 0) + Count(peers[i + 1..], fp)
  {
    CountJoins(peers[..i], peers[i..], fp);
    assert peers == peers[..i] + peers[i..] && peers[i..][1..] == peers[i + 1..];
  }

  /** Upsert trusts its peer, changes no other, and never makes a fingerprint occur twice. */
  lemma UpsertCounts(peers: seq<Peer>, p: Peer, fp: Fp)
    ensures Count(Upserted(peers, p), fp) ==
            if fp == p.fp && Count(peers, fp) == 0 then 1 else Count(peers, fp)
    ensures Trusts(Upserted(peers, p), p.fp)
  {
    var i := Position(peers, p.fp);
    var after := Upserted(peers, p);
    TrustsIsCount(peers, p.fp);
    TrustsIsCount(after, p.fp);
    if i < |peers| {
      CountAround(peers, i, fp);
      CountAround(after, i, fp);
      assert after[..i] == peers[..i] && after[i + 1..] == peers[i + 1..];
      assert peers[i] in peers;
      CountAround(after, i, p.fp);
    } else {
      CountJoins(peers, [p], fp);
      CountJoins(peers, [p], p.fp);
      assert forall q | q in peers :: exists j | 0 <= j < |peers| :: peers[j] == q;
    }
  }

  /** After removal a peer is still trusted exactly when it was listed more than once. */
  lemma RemovedIffListedOnce(peers: seq<Peer>, fp: Fp)
    ensures Trusts(Removed(peers, fp), fp) <==> Count(peers, fp) >= 2
    ensures forall other | other != fp :: Count(Removed(peers, fp), other) == Count(peers, other)
  {
    var i := Position(peers, fp);
    var after := Removed(peers, fp);
    TrustsIsCount(after, fp);
    TrustsIsCount(peers, fp);
    if i < |peers| {
      CountAround(peers, i, fp);
      CountJoins(peers[..i], peers[i + 1..], fp);
      forall other | other != fp
        ensures Count(after, other) == Count(peers, other)
      {
        CountAround(peers, i, other);
        CountJoins(peers[..i], peers[i + 1..], other);
      }
    } else {
      assert forall q | q in peers :: exists j | 0 <= j < |peers| :: peers[j] == q;
    }
  }

  /** The new entry is the first of its fingerprint, in the old one's place or at the end; all others stay as they are. */
  lemma UpsertMeans(peers: seq<Peer>, p: Peer) returns (i: nat)
    ensures var after := Upserted(peers, p);
            && i < |after| && after[i] == p && (forall j | 0 <= j < i :: after[j].fp != p.fp)
            && |after| == (if Trusts(peers, p.fp) then |peers| else |peers| + 1)
            && (!Trusts(peers, p.fp) ==> i == |peers|)
            && (forall j | 0 <= j < |peers| && j != i :: after[j] == peers[j])
  {
    i := Position(peers, p.fp);
    assert Trusts(peers, p.fp) <==> i < |peers| by {
      assert i < |peers| ==> peers[i] in peers;
      assert forall q | q in peers :: exists j | 0 <= j < |peers| :: peers[j] == q;
    }
  }

  /** Of a listed peer exactly the first entry is taken out of the list. */
  lemma RemovedMeans(peers: seq<Peer>, fp: Fp) returns (i: nat)
    requires Trusts(peers, fp)
    ensures i < |peers| && peers[i].fp == fp && (forall j | 0 <= j < i :: peers[j].fp != fp)
    ensures Removed(peers, fp) == peers[..i] + peers[i + 1..]
  {
    i := Position(peers, fp);
    assert forall q | q in peers :: exists j | 0 <= j < |peers| :: peers[j] == q;
  }
}
