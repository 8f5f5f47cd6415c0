/**
 * The score side channel (`ScoreManager`): two 32-bit collection counters and
 * a message that carries both, good count first.
 */
module Scoring {

  newtype int32 = x: int | -0x8000_0000 <= x < 0x8000_0000
  newtype uint8 = x: int | 0 <= x < 0x100

  const MinInt32: int32 := -0x8000_0000
  const MaxInt32: int32 := 0x7FFF_FFFF

  /** C#'s unchecked `x++` on an `int`: one more, wrapping from the largest value to the smallest. */
  function Increment(x: int32): (r: int32)
    ensures x < MaxInt32 ==> r as int == x as int + 1
    ensures x == MaxInt32 ==> r == MinInt32
  {
    if x == MaxInt32 then MinInt32 else x + 1
  }

  /** The increment is exactly one more, modulo 2^32. */
  lemma IncrementIsModular(x: int32)
    ensures Increment(x) as int % 0x1_0000_0000 == (x as int + 1) % 0x1_0000_0000
  {
  }

  function Pow256(n: nat): (p: nat)
    ensures p > 0
  {
    if n == 0 then 1 else 0x100 * Pow256(n - 1)
  }

  /** The `n` low bytes of `u`, least significant first. */
  function LittleEndian(u: nat, n: nat): (bytes: seq<uint8>)
    ensures |bytes| == n
  {
    if n == 0 then [] else [(u % 0x100) as uint8] + LittleEndian(u / 0x100, n - 1)
  }

  /** The number that little-endian `bytes` spell. */
  function FromLittleEndian(bytes: seq<uint8>): (u: nat)
    ensures u < Pow256(|bytes|)
  {
    if bytes == [] then 0 else bytes[0] as nat + 0x100 * FromLittleEndian(bytes[1..])
  }

  /** Reading back `n` little-endian bytes of a number below 256^n gives the number. */
  lemma {:induction false} LittleEndianRoundTrip(u: nat, n: nat)
    requires u < Pow256(n)
    ensures FromLittleEndian(LittleEndian(u, n)) == u
  {
    if n == 0 {
    } else {
      var q := u / 0x100;
      assert q < Pow256(n - 1);
      LittleEndianRoundTrip(q, n - 1);
      var bytes := LittleEndian(u, n);
      assert bytes[1..] == LittleEndian(q, n - 1);
    }
  }

  /** The two's-complement bit pattern of an `int32`, as an unsigned number. */
  function Unsigned(v: int32): (u: nat)
    ensures u < 0x1_0000_0000
    ensures u % 0x1_0000_0000 == v as int % 0x1_0000_0000
  {
    if v < 0 then v as int + 0x1_0000_0000 else v as int
  }

  /** `WriteInt32`: four bytes, least significant first. */
  function EncodeInt32(v: int32): (bytes: seq<uint8>)
    ensures |bytes| == 4
    ensures DecodeInt32(bytes) == v
  {
    LittleEndianRoundTrip(Unsigned(v), 4);
    LittleEndian(Unsigned(v), 4)
  }

  /** `ReadInt32` on four little-endian bytes. */
  function DecodeInt32(bytes: seq<uint8>): int32
    requires |bytes| == 4
  {
    var u := FromLittleEndian(bytes);
    if u >= 0x8000_0000 then (u - 0x1_0000_0000) as int32 else u as int32
  }

  /** The payload `SendSphereData` queues: the good count, then the bad count. */
  function SpherePayload(goodScore: int32, badScore: int32): (m: seq<uint8>)
    ensures |m| == 8
    ensures DecodeInt32(m[..4]) == goodScore && DecodeInt32(m[4..]) == badScore
  {
    var good := EncodeInt32(goodScore);
    var bad := EncodeInt32(badScore);
    assert (good + bad)[..4] == good && (good + bad)[4..] == bad;
    good + bad
  }

  /** The counter after `k` increments from its initial 0. */
  function Counted(k: nat): int32
  {
    if k == 0 then 0 else Increment(Counted(k - 1))
  }

  /** Up to 2^31 - 1 collections the counter equals the number of collections; the next one wraps it to the smallest int32. */
  lemma {:induction false} CountedExactly(k: nat)
    requires k <= MaxInt32 as int + 1
    ensures k <= MaxInt32 as int ==> Counted(k) as int == k
    ensures k == MaxInt32 as int + 1 ==> Counted(k) == MinInt32
  {
    if k > 0 {
      CountedExactly(k - 1);
    }
  }

  /** The wire bytes for a good count of 3 and a bad count of 5. */
  lemma PayloadExample()
    ensures SpherePayload(3, 5) == [3, 0, 0, 0, 5, 0, 0, 0]
  {
    assert LittleEndian(3, 4) == [3, 0, 0, 0] by {
      assert LittleEndian(0, 1) == [0];
      assert LittleEndian(0, 2) == [0, 0];
      assert LittleEndian(0, 3) == [0, 0, 0];
    }
    assert LittleEndian(5, 4) == [5, 0, 0, 0] by {
      assert LittleEndian(0, 3) == [0, 0, 0];
    }
  }

  class ScoreManager {
    var goodScore: int32
    var badScore: int32
    /** The messages queued on the side channel, oldest first. */
    var outbox: seq<seq<uint8>>

    constructor ()
      ensures goodScore == 0 && badScore == 0 && outbox == []
    {
      goodScore := 0;
      badScore := 0;
      outbox := [];
    }

    method AddGoodScore()
      modifies this`goodScore
      ensures goodScore == Increment(old(goodScore))
    {
      goodScore := Increment(goodScore);
    }

    method AddBadScore()
      modifies this`badScore
      ensures badScore == Increment(old(badScore))
    {
      badScore := Increment(badScore);
    }

    method SendSphereData()
      modifies this`outbox
      ensures outbox == old(outbox) + [SpherePayload(goodScore, badScore)]
    {
      var msg := EncodeInt32(goodScore);
      msg := msg + EncodeInt32(badScore);
      outbox := outbox + [msg];
    }

    /** Inbound messages are ignored. */
    method OnMessageReceived(msg: seq<uint8>)
      ensures unchanged(this)
    {
    }
  }
}
