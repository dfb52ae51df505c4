/**
 * The checks every serializer runs before it touches the destination: `record_serializer_common`
 * (src/user/record/serializer/serializer.c) and `data_serializer_common`
 * (src/user/data/serializer/serializer.c), which differ only in the names of their error codes.
 */
module Serializer {
  import opened Wrappers
  import opened Hex
  import opened Records

  /** src/user/error.h; src/user/data/converter/converter.h gives the ERR_DATA_* names the same values. */
  const ERR_DST_INVALID: int := -1
  const ERR_DST_INSUFFICIENT: int := -2
  const ERR_RECORD_INVALID: int := -3
  const ERR_RECORD_INVALID_HEADER: int := -4
  const ERR_RECORD_INVALID_MAGIC: int := -5

  /**
   * The guard chain over a destination (null or not, and its length) and a record (null, or its
   * bytes): the first failing check decides the code, and 0 means every check passed.  Nothing is
   * written anywhere.
   */
  function CommonCheck(dstNull: bool, dstLen: nat, record: Option<seq<byte>>): (r: int)
    ensures r == 0 <==> !dstNull && dstLen > 0 && record.Some? && ELEM_COMMON_SIZE <= |record.value|
                        && DecodeCommon(record.value).magic == AMEBA_MAGIC
    ensures r == ERR_DST_INVALID <==> dstNull
    ensures r == ERR_DST_INSUFFICIENT <==> !dstNull && dstLen == 0
    ensures r == ERR_RECORD_INVALID <==> !dstNull && dstLen > 0 && (record.None? || record.value == [])
    ensures r == ERR_RECORD_INVALID_HEADER <==>
              !dstNull && dstLen > 0 && record.Some? && 0 < |record.value| < ELEM_COMMON_SIZE
    ensures r == ERR_RECORD_INVALID_MAGIC <==>
              !dstNull && dstLen > 0 && record.Some? && ELEM_COMMON_SIZE <= |record.value|
              && DecodeCommon(record.value).magic != AMEBA_MAGIC
  {
    if dstNull then ERR_DST_INVALID
    else if dstLen == 0 then ERR_DST_INSUFFICIENT
    else if record.None? || |record.value| == 0 then ERR_RECORD_INVALID
    else if |record.value| < ELEM_COMMON_SIZE then ERR_RECORD_INVALID_HEADER
    else if DecodeCommon(record.value).magic != AMEBA_MAGIC then ERR_RECORD_INVALID_MAGIC
    else 0
  }

  /** The check reads only the first ELEM_COMMON_SIZE bytes and the length: bytes after the header never matter. */
  lemma {:induction false} CommonCheckReadsHeaderOnly(dstNull: bool, dstLen: nat, record: seq<byte>, tail: seq<byte>)
    requires ELEM_COMMON_SIZE <= |record|
    ensures CommonCheck(dstNull, dstLen, Some(record + tail)) == CommonCheck(dstNull, dstLen, Some(record))
  {
    var whole := record + tail;
    assert whole[..ELEM_COMMON_SIZE] == record[..ELEM_COMMON_SIZE];
    assert forall i | 0 <= i < ELEM_COMMON_SIZE :: whole[i] == record[i];
    assert DecodeCommon(whole) == DecodeCommon(record);
  }
}
