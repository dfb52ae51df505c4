/**
 * `convert_data_to_json` of src/user/convert_data.c: the common checks, then a JSON object opened in
 * the caller's buffer through a `json_buffer`, the record's type and exact size checked, the
 * record's fields written by the writer of its type, the object closed, and the overflow flag
 * turned into the answer.
 */
module ConvertData {
  import opened Wrappers
  import opened Hex
  import opened CStd
  import opened BoundedText
  import opened JsonText
  import opened Records
  import opened JsonCore
  import opened Serializer
  import RecordJson

  /** `sizeof` of the record struct for each type the converter knows, nothing for the others. */
  function ConvertSize(recordType: int): (r: Option<nat>)
    ensures r.Some? <==> RECORD_TYPE_NEW_PROCESS <= recordType <= RECORD_TYPE_SEND
    ensures recordType != RECORD_TYPE_SEND ==> r == RecordJson.RecordSize(recordType)
    ensures recordType == RECORD_TYPE_SEND ==> r == Some(RECORD_SEND_SIZE)
  {
    if recordType == RECORD_TYPE_CONNECT then Some(RECORD_CONNECT_SIZE)
    else if recordType == RECORD_TYPE_ACCEPT then Some(RECORD_ACCEPT_SIZE)
    else if recordType == RECORD_TYPE_NAMESPACE then Some(RECORD_NAMESPACE_SIZE)
    else if recordType == RECORD_TYPE_NEW_PROCESS then Some(RECORD_NEW_PROCESS_SIZE)
    else if recordType == RECORD_TYPE_CRED then Some(RECORD_CRED_SIZE)
    else if recordType == RECORD_TYPE_SEND then Some(RECORD_SEND_SIZE)
    else None
  }

  /** The fields a record writer produces, each one formatted `"key":value` fragment. */
  predicate Fragments(body: seq<string>)
  {
    forall i | 0 <= i < |body| :: body[i] != [] && NoNul(body[i])
  }

  /** The body as keyed fields of one fragment each. */
  function Fields(body: seq<string>): (fields: seq<seq<string>>)
    ensures |fields| == |body| && forall i | 0 <= i < |body| :: fields[i] == [body[i]]
  {
    if body == [] then [] else Fields(body[..|body| - 1]) + [[body[|body| - 1]]]
  }

  lemma FragmentsNonEmpty(body: seq<string>)
    requires Fragments(body)
    ensures NonEmptyFields(Fields(body))
  {
    forall i | 0 <= i < |body| ensures Concat(Fields(body)[i]) != [] {
      ConcatSingle(body[i]);
    }
  }

  /**
   * The answer for a destination (null or not, its length), the data (null, or its bytes) and the
   * fields its writer renders.  `emptyChecked` says whether a buffer with no room at all (a length
   * of one, all of it taken by the terminator) counts as overflown: `jsonify_core_has_overflown`
   * reports only a write that did not fit in a buffer that had room.
   */
  function Outcome(dstNull: bool, dstLen: nat, data: Option<seq<byte>>, fields: seq<seq<string>>, emptyChecked: bool): (r: int)
    ensures CommonCheck(dstNull, dstLen, data) != 0 ==> r == CommonCheck(dstNull, dstLen, data)
    ensures r == RecordJson.ERR_DATA_UNKNOWN <==>
              CommonCheck(dstNull, dstLen, data) == 0 && ConvertSize(DecodeCommon(data.value).recordType).None?
    ensures r == RecordJson.ERR_DATA_SIZE_MISMATCH <==>
              CommonCheck(dstNull, dstLen, data) == 0 && ConvertSize(DecodeCommon(data.value).recordType).Some?
              && ConvertSize(DecodeCommon(data.value).recordType) != Some(|data.value|)
    ensures r == 0 || r == ERR_DST_INSUFFICIENT || r == RecordJson.ERR_DATA_SIZE_MISMATCH || r == RecordJson.ERR_DATA_UNKNOWN
              || r == CommonCheck(dstNull, dstLen, data)
  {
    var e := CommonCheck(dstNull, dstLen, data);
    if e != 0 then e
    else
      var size := ConvertSize(DecodeCommon(data.value).recordType);
      if size.None? then RecordJson.ERR_DATA_UNKNOWN
      else if size.value != |data.value| then RecordJson.ERR_DATA_SIZE_MISMATCH
      else if ObjectSink(dstLen, fields).rem == 0 && (emptyChecked || dstLen > 1) then ERR_DST_INSUFFICIENT
      else 0
  }

  /** `convert_data_to_json` as written: a one-byte destination is never reported insufficient. */
  function ConvertAsWritten(dstNull: bool, dstLen: nat, data: Option<seq<byte>>, fields: seq<seq<string>>): (r: int)
    ensures dstLen == 1 ==> r != ERR_DST_INSUFFICIENT
  {
    Outcome(dstNull, dstLen, data, fields, false)
  }

  /** `convert_data_to_json` with a destination too small for any text reported as insufficient. */
  function Convert(dstNull: bool, dstLen: nat, data: Option<seq<byte>>, fields: seq<seq<string>>): (r: int)
    ensures (dstLen == 1 && CommonCheck(dstNull, dstLen, data) == 0
             && ConvertSize(DecodeCommon(data.value).recordType) == Some(|data.value|)) ==> r == ERR_DST_INSUFFICIENT
  {
    NoRoomWritesNothing(fields);
    Outcome(dstNull, dstLen, data, fields, true)
  }

  /** A buffer of one byte has no room: every write is dropped. */
  lemma NoRoomWritesNothing(fields: seq<seq<string>>)
    ensures ObjectSink(1, fields) == Sink([], 0, [])
  {
    WriteFieldsLatched(Opened(1), fields);
  }

  /**
   * As written, a one-byte destination and any well-formed record of a known type and its size
   * give 0, the answer for a converted record, although the destination holds no JSON at all.
   */
  lemma EmptyDestinationAcceptedAsWritten(data: seq<byte>, fields: seq<seq<string>>)
    requires CommonCheck(false, 1, Some(data)) == 0
    requires ConvertSize(DecodeCommon(data).recordType) == Some(|data|)
    ensures ConvertAsWritten(false, 1, Some(data), fields) == 0
    ensures ObjectSink(1, fields).text + ObjectSink(1, fields).spill == []
    ensures Convert(false, 1, Some(data), fields) == ERR_DST_INSUFFICIENT
  {
    NoRoomWritesNothing(fields);
  }

  /**
   * With the empty buffer checked, 0 means exactly: the checks pass, the record has a known type
   * and its size, and the whole object fits before the terminator.
   */
  lemma ConvertSucceeds(dstNull: bool, dstLen: nat, data: Option<seq<byte>>, fields: seq<seq<string>>)
    requires NonEmptyFields(fields)
    ensures Convert(dstNull, dstLen, data, fields) == 0 <==>
              CommonCheck(dstNull, dstLen, data) == 0 && ConvertSize(DecodeCommon(data.value).recordType) == Some(|data.value|)
              && |ObjectText(fields)| < dstLen - 1
  {
    if CommonCheck(dstNull, dstLen, data) == 0 {
      if dstLen == 1 {
        NoRoomWritesNothing(fields);
      } else {
        ObjectRendering(dstLen, fields);
      }
    }
  }

  /**
   * For the record types both converters know, `convert_data_to_json` reports the same guard errors
   * as `jsonify_record_data_to_json` of src/user/jsonify.c, and accepts the same records.
   */
  lemma GuardsAgreeWithRecordJson(dstNull: bool, dstLen: nat, data: Option<seq<byte>>, fields: seq<seq<string>>)
    requires data.Some? && ELEM_COMMON_SIZE <= |data.value| ==> DecodeCommon(data.value).recordType != RECORD_TYPE_SEND
    ensures var c := RecordJson.Classify(dstNull, dstLen, data);
      && (c.Err? ==> Convert(dstNull, dstLen, data, fields) == c.error)
      && (c.Ok? ==> Convert(dstNull, dstLen, data, fields) in {0, ERR_DST_INSUFFICIENT})
  {
  }

  /** One more fragment is one more keyed write. */
  lemma WriteBodyStep(start: Sink, body: seq<string>, i: nat)
    requires i < |body|
    ensures WriteFields(start, Fields(body[..i + 1])) == WriteField(WriteFields(start, Fields(body[..i])), [body[i]])
  {
    WriteFieldsSnoc(start, Fields(body[..i]), [body[i]]);
    assert body[..i + 1][..i] == body[..i];
  }

  /** The record writer's calls: each fragment written as one more field of the open object. */
  method WriteBody(s: JsonBuffer, body: seq<string>)
    requires s.Valid() && Fragments(body)
    modifies s, s.buf
    ensures s.Valid() && s.buf == old(s.buf) && s.maxBufLen == old(s.maxBufLen)
    ensures s.sink == WriteFields(old(s.sink), Fields(body))
  {
    ghost var start := s.sink;
    var i := 0;
    while i < |body|
      invariant 0 <= i <= |body|
      invariant s.Valid() && s.buf == old(s.buf) && s.maxBufLen == old(s.maxBufLen)
      invariant s.sink == WriteFields(start, Fields(body[..i]))
    {
      var _ := s.WriteKeyed(body[i]);
      WriteBodyStep(start, body, i);
      i := i + 1;
    }
    assert body[..i] == body;
  }

  /**
   * `convert_data_to_json`, with the writer of the record's type given as the fragments it
   * formats.  A failed common check leaves the destination untouched; a type or size error leaves
   * the opened brace in it; 0 leaves the whole object when the destination has room for any text
   * (a one-byte destination also answers 0, with nothing written); an overflow leaves a prefix of it.
   */
  method ConvertDataToJson(dst: array?<char>, dstLen: nat, data: Option<seq<byte>>, body: seq<string>) returns (r: int)
    requires dst != null ==> dst.Length == dstLen <= 0x8000_0000
    requires Fragments(body)
    modifies dst
    ensures r == ConvertAsWritten(dst == null, dstLen, data, Fields(body))
    ensures CommonCheck(dst == null, dstLen, data) != 0 && dst != null ==> dst[..] == old(dst[..])
    ensures r == 0 && dstLen >= 2 ==> dst != null && CString(dst[..]) == ObjectText(Fields(body))
    ensures (r == RecordJson.ERR_DATA_SIZE_MISMATCH || r == RecordJson.ERR_DATA_UNKNOWN) && dstLen >= 3 ==>
              dst != null && CString(dst[..]) == "{"
    ensures r == ERR_DST_INSUFFICIENT && dstLen >= 2 ==> dst != null && CString(dst[..]) <= ObjectText(Fields(body))
  {
    var e := CommonCheck(dst == null, dstLen, data);
    if e != 0 {
      return e;
    }
    var s := new JsonBuffer.Init(dst, dstLen);
    var _ := s.OpenObj();
    ghost var start := Opened(dstLen);
    assert s.sink == start;
    var size := ConvertSize(DecodeCommon(data.value).recordType);
    if size.None? || size.value != |data.value| {
      r := if size.None? then RecordJson.ERR_DATA_UNKNOWN else RecordJson.ERR_DATA_SIZE_MISMATCH;
      if dstLen >= 3 {
        s.Shown();
      }
      return;
    }
    WriteBody(s, body);
    var _ := s.CloseObj();
    assert s.sink == ObjectSink(dstLen, Fields(body));
    FragmentsNonEmpty(body);
    var over := s.HasOverflown();
    if s.maxBufLen == 0 {
      NoRoomWritesNothing(Fields(body));
    } else {
      ObjectRendering(dstLen, Fields(body));
      s.Shown();
    }
    if over == 1 {
      return ERR_DST_INSUFFICIENT;
    }
    r := 0;
  }
}
