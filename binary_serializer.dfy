/**
 * The binary serializers (src/user/record/serializer/binary.c and src/user/data/serializer/binary.c,
 * which are the same code over records and over data): after the common checks, the length of the
 * payload as the eight little-endian bytes of a `size_t`, then the payload verbatim.
 */
module BinarySerializer {
  import opened Wrappers
  import opened Hex
  import opened Records
  import opened Serializer

  /** `sizeof(size_t)` on x86-64. */
  const SIZE_T_BYTES: nat := 8

  /** The largest object size (PTRDIFF_MAX); no record in memory is longer. */
  const MAX_OBJECT_SIZE: nat := 0x7fff_ffff_ffff_ffff

  function Pow256(k: nat): (p: nat)
    ensures p >= 1
  {
    if k == 0 then 1 else 256 * Pow256(k - 1)
  }

  /** The `k` little-endian bytes of `n`. */
  function LeBytes(n: nat, k: nat): (bs: seq<byte>)
    ensures |bs| == k
  {
    if k == 0 then [] else [n % 256] + LeBytes(n / 256, k - 1)
  }

  /** The number `k` little-endian bytes hold. */
  function LeValue(bs: seq<byte>): nat
  {
    if bs == [] then 0 else bs[0] as nat + 256 * LeValue(bs[1..])
  }

  /** Reading back the bytes of a number that fits gives the number. */
  lemma {:induction false} LeValueOfBytes(n: nat, k: nat)
    requires n < Pow256(k)
    ensures LeValue(LeBytes(n, k)) == n
  {
    if k > 0 {
      var bs := LeBytes(n, k);
      assert bs[1..] == LeBytes(n / 256, k - 1);
      assert n / 256 < Pow256(k - 1);
      LeValueOfBytes(n / 256, k - 1);
    }
  }

  /** The frame the serializers write: the length prefix, then the payload. */
  function Frame(payload: seq<byte>): (f: seq<byte>)
    requires |payload| <= MAX_OBJECT_SIZE
    ensures |f| == SIZE_T_BYTES + |payload|
  {
    LeBytes(|payload|, SIZE_T_BYTES) + payload
  }

  /** A reader of frames: the payload and whatever follows, or `None` when the bytes are too short. */
  function Unframe(bs: seq<byte>): Option<(seq<byte>, seq<byte>)>
  {
    if |bs| < SIZE_T_BYTES then None
    else
      var n := LeValue(bs[..SIZE_T_BYTES]);
      if |bs| - SIZE_T_BYTES < n then None
      else Some((bs[SIZE_T_BYTES..SIZE_T_BYTES + n], bs[SIZE_T_BYTES + n..]))
  }

  /** A frame followed by anything reads back as its payload, with the rest left over. */
  lemma UnframeFrame(payload: seq<byte>, rest: seq<byte>)
    requires |payload| <= MAX_OBJECT_SIZE
    ensures Unframe(Frame(payload) + rest) == Some((payload, rest))
  {
    var bs := Frame(payload) + rest;
    assert bs[..SIZE_T_BYTES] == LeBytes(|payload|, SIZE_T_BYTES);
    assert Pow256(SIZE_T_BYTES) == 0x1_0000_0000_0000_0000;
    LeValueOfBytes(|payload|, SIZE_T_BYTES);
    assert bs[SIZE_T_BYTES..SIZE_T_BYTES + |payload|] == payload;
    assert bs[SIZE_T_BYTES + |payload|..] == rest;
  }

  /** Frames written one after another, as a log file of binary records holds them. */
  function Frames(payloads: seq<seq<byte>>): seq<byte>
    requires forall i | 0 <= i < |payloads| :: |payloads[i]| <= MAX_OBJECT_SIZE
  {
    if payloads == [] then [] else Frame(payloads[0]) + Frames(payloads[1..])
  }

  /** Reading frames until the bytes run out. */
  function Unframes(bs: seq<byte>): seq<seq<byte>>
    decreases |bs|
  {
    match Unframe(bs)
    case None => []
    case Some((p, rest)) => [p] + Unframes(rest)
  }

  /** A stream of frames reads back as the payloads it was written from. */
  lemma {:induction false} UnframesFrames(payloads: seq<seq<byte>>)
    requires forall i | 0 <= i < |payloads| :: |payloads[i]| <= MAX_OBJECT_SIZE
    ensures Unframes(Frames(payloads)) == payloads
  {
    if payloads != [] {
      UnframeFrame(payloads[0], Frames(payloads[1..]));
      UnframesFrames(payloads[1..]);
    }
  }

  /** The answer of `*_serializer_binary_serialize`: a common-check error unchanged, ERR_DST_INSUFFICIENT
    * when the frame does not fit, otherwise the number of bytes written. */
  function SerializeResult(dstNull: bool, dstLen: nat, record: Option<seq<byte>>): (r: int)
    requires record.Some? ==> |record.value| <= MAX_OBJECT_SIZE
    ensures r > 0 <==> CommonCheck(dstNull, dstLen, record) == 0 && SIZE_T_BYTES + |record.value| <= dstLen
    ensures r > 0 ==> r == |Frame(record.value)|
    ensures r <= 0 ==> r < 0
    ensures CommonCheck(dstNull, dstLen, record) != 0 ==> r == CommonCheck(dstNull, dstLen, record)
  {
    var err := CommonCheck(dstNull, dstLen, record);
    if err != 0 then err
    else if SIZE_T_BYTES + |record.value| > dstLen then ERR_DST_INSUFFICIENT
    else SIZE_T_BYTES + |record.value|
  }

  /**
   * `record_serializer_binary_serialize` / `data_serializer_binary_serialize`: on success the
   * destination starts with the frame of the record and is unchanged after it; on an error it is
   * not touched.
   */
  method SerializeBinary(dst: array?<byte>, dstLen: nat, record: Option<seq<byte>>) returns (r: int)
    requires dst != null ==> dst.Length == dstLen
    requires record.Some? ==> |record.value| <= MAX_OBJECT_SIZE
    modifies dst
    ensures r == SerializeResult(dst == null, dstLen, record)
    ensures r < 0 && dst != null ==> dst[..] == old(dst[..])
    ensures r > 0 ==> dst != null && record.Some? && dst[..r] == Frame(record.value) && dst[r..] == old(dst[r..])
  {
    var err := CommonCheck(dst == null, dstLen, record);
    if err != 0 {
      return err;
    }
    var payload := record.value;
    var required := SIZE_T_BYTES + |payload|;
    if required > dstLen {
      return ERR_DST_INSUFFICIENT;
    }
    var prefix := LeBytes(|payload|, SIZE_T_BYTES);
    forall j | 0 <= j < SIZE_T_BYTES {
      dst[j] := prefix[j];
    }
    forall j | 0 <= j < |payload| {
      dst[SIZE_T_BYTES + j] := payload[j];
    }
    r := required;
    assert dst[..r] == prefix + payload;
  }
}
