/**
 Keys under which pushes to a peer await their source jobs. They share one 64-bit space with the
 engine's own job ids.
 */
module PeerKeys {
  import opened Prelude

  /** A peer's certificate fingerprint: 32 octets. */
  type Fingerprint = fp: seq<byte> | |fp| == 32 witness seq(32, _ => 0)

  /** Values below the three tag bits. */
  const SLOT: nat := 0x2000_0000_0000_0000

  /** First id of the source jobs' segment. */
  const SOURCE_BASE: nat := 0x8000_0000_0000_0000

  /** First id of the cards' segment. */
  const CARD_ID_BASE: nat := 0x4000_0000_0000

  const BATCH: nat := 1
  const RETRY: nat := 2
  const SINGLE: nat := 3

  function BigEndian(bs: seq<byte>): nat {
    if bs == [] then 0 else BigEndian(bs[..|bs| - 1]) * 256 + bs[|bs| - 1]
  }

  /** The tag over the top 61 bits of the fingerprint; `OrIsSum` relates this to the bit operations. */
  function PeerKey(fp: Fingerprint, tag: nat): nat
    requires 1 <= tag < 8
  {
    tag * SLOT + BigEndian(fp[..8]) / 8
  }

  function BatchKey(fp: Fingerprint): nat { PeerKey(fp, BATCH) }

  function RetryKey(fp: Fingerprint): nat { PeerKey(fp, RETRY) }

  function SingleKey(fp: Fingerprint): nat { PeerKey(fp, SINGLE) }

  /** On machine words, shifting, or-ing and adding agree: the tag and the prefix share no bit. */
  lemma OrIsSum(tag: bv64, prefix: bv64)
    requires tag < 8
    ensures ((tag << 61) | (prefix >> 3)) == (tag * 0x2000_0000_0000_0000) + (prefix / 8)
    ensures ((tag << 61) | (prefix >> 3)) >> 61 == tag
  {
    assert prefix / 8 == prefix >> 3;
    assert tag * 0x2000_0000_0000_0000 == tag << 61;
  }

  /** A fixed number of octets holds exactly the numbers below its power, each once. */
  lemma {:induction false} BigEndianFaithful(a: seq<byte>, b: seq<byte>)
    requires |a| == |b|
    ensures BigEndian(a) < Pow256(|a|)
    ensures BigEndian(a) == BigEndian(b) <==> a == b
  {
    if a != [] {
      var a', b' := a[..|a| - 1], b[..|b| - 1];
      BigEndianFaithful(a', b');
      assert a == a' + [a[|a| - 1]] && b == b' + [b[|b| - 1]];
    }
  }

  /** The 61 bits that count: seven octets and the upper five bits of the eighth. */
  lemma Prefix61(fp: Fingerprint)
    ensures BigEndian(fp[..8]) / 8 == BigEndian(fp[..7]) * 32 + fp[7] / 8
    ensures BigEndian(fp[..8]) / 8 < SLOT
  {
    assert fp[..8][..7] == fp[..7];
    BigEndianFaithful(fp[..7], fp[..7]);
    assert Pow256(2) == 0x1_0000 && Pow256(4) == 0x1_0000_0000;
    assert Pow256(7) == 0x100_0000_0000_0000;
  }

  /** Two keys coincide exactly when the tags and the top 61 fingerprint bits do. */
  lemma KeysApart(fp: Fingerprint, tag: nat, fp': Fingerprint, tag': nat)
    requires 1 <= tag < 8 && 1 <= tag' < 8
    ensures PeerKey(fp, tag) == PeerKey(fp', tag') <==> tag == tag' && fp[..7] == fp'[..7] && fp[7] / 8 == fp'[7] / 8
  {
    Prefix61(fp);
    Prefix61(fp');
    BigEndianFaithful(fp[..7], fp'[..7]);
    var p, p' := BigEndian(fp[..8]) / 8, BigEndian(fp'[..8]) / 8;
    assert tag * SLOT + p == tag' * SLOT + p' <==> tag == tag' && p == p';
    var h, h' := BigEndian(fp[..7]), BigEndian(fp'[..7]);
    assert h * 32 + fp[7] / 8 == h' * 32 + fp'[7] / 8 <==> h == h' && fp[7] / 8 == fp'[7] / 8;
  }

  /** The keys in use lie between the engine's job ids and its source job ids. */
  lemma KeyRange(fp: Fingerprint, tag: nat, job: nat)
    requires tag in {BATCH, RETRY, SINGLE}
    ensures SLOT <= PeerKey(fp, tag) < SOURCE_BASE
    ensures job < SLOT || job >= SOURCE_BASE ==> job != PeerKey(fp, tag)
  {
    Prefix61(fp);
  }
}
