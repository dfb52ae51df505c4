/**
 * The request side of the control API: the header guards of `internal_unsafe_api_handle` and the
 * lock around them (src/user/api/handle.c), the handler table of `api_request_handle`
 * (src/user/api/request/handle.c), and the error responses both answer with
 * (src/user/api/response/error/create.c).  Requests are the bytes the client sent, in host order.
 */
module Api {
  import opened Wrappers
  import opened Hex
  import opened Records

  /** `api_response_error_t` of src/user/api/response/error/types.h. */
  const API_RESPONSE_ERROR_INVALID_DATA: nat := 1
  const API_RESPONSE_ERROR_INVALID_VERSION: nat := 2
  const API_RESPONSE_ERROR_INVALID_MSG_TYPE: nat := 3
  const API_RESPONSE_ERROR_INTERNAL_ERROR: nat := 4

  /** `api_request_type_t` of src/user/api/request/types.h. */
  const API_REQUEST_TYPE_GET_CONTROL: nat := 1

  /** `struct api_header`: the magic (4 bytes), then `struct elem_version` (4 bytes). */
  const API_HEADER_SIZE: nat := 8

  /** `struct api_request_header`: the api header, then the request type (4 bytes). */
  const API_REQUEST_HEADER_SIZE: nat := 12

  /** `request_handlers`: slot 1 holds the get-control handler, slot 0 is empty. */
  const REQUEST_HANDLERS: seq<bool> := [false, true]

  datatype Response = ErrorResponse(error: nat) | HandlerResponse(requestType: nat)

  /**
   * What a call answers: its status and the response it stored through `response`, if any; or a
   * store through a null `response` pointer.
   */
  datatype Reply = Reply(status: int, response: Option<Response>) | NullWrite

  /** What the calls the dispatcher cannot see do: `malloc` of an error response, the handler's status. */
  datatype Env = Env(allocOk: bool, handlerStatus: int)

  /** The four bytes of an unsigned 32-bit value in host order. */
  function U32Bytes(v: nat): (bs: seq<byte>)
    requires v < 0x1_0000_0000
    ensures |bs| == 4
  {
    var q1 := v / 256;
    var q2 := q1 / 256;
    [v % 256, q1 % 256, q2 % 256, q2 / 256]
  }

  lemma U32AtBytes(bs: seq<byte>, at: nat, v: nat)
    requires v < 0x1_0000_0000 && at + 4 <= |bs| && bs[at..at + 4] == U32Bytes(v)
    ensures U32At(bs, at) == v
  {
    var q1 := v / 256;
    var q2 := q1 / 256;
    assert bs[at] == v % 256 && bs[at + 1] == q1 % 256 && bs[at + 2] == q2 % 256 && bs[at + 3] == q2 / 256;
  }

  /** `struct elem_version` as stored: the major number in two bytes, then minor and patch. */
  function VersionBytes(v: ElemVersion): (bs: seq<byte>)
    requires ValidVersion(v)
    ensures |bs| == 4
  {
    [v.major % 256, v.major / 256, v.minor, v.patch]
  }

  function DecodeVersion(bs: seq<byte>, at: nat): (v: ElemVersion)
    requires at + 4 <= |bs|
    ensures ValidVersion(v)
  {
    ElemVersion(U16At(bs, at), bs[at + 2], bs[at + 3])
  }

  lemma DecodeVersionBytes(bs: seq<byte>, at: nat, v: ElemVersion)
    requires ValidVersion(v) && at + 4 <= |bs| && bs[at..at + 4] == VersionBytes(v)
    ensures DecodeVersion(bs, at) == v
  {
    assert bs[at] == v.major % 256 && bs[at + 1] == v.major / 256;
  }

  /**
   * The header a client builds with `api_request_header_init` (src/user/api/request/header.c and
   * src/user/api/common.c): the magic, its api version and the request type.
   */
  function RequestHeader(version: ElemVersion, requestType: nat): (bs: seq<byte>)
    requires ValidVersion(version) && requestType < 0x1_0000_0000
    ensures |bs| == API_REQUEST_HEADER_SIZE
  {
    U32Bytes(AMEBA_MAGIC) + VersionBytes(version) + U32Bytes(requestType)
  }

  /**
   * `api_response_error_create_alloc_init`: 0 and an error response stored, or -1 when `malloc`
   * fails.  As written the response is stored through `response` even when it is null; corrected,
   * a null `response` gets -1 and nothing stored.
   */
  function ErrorReplyWith(code: nat, allocOk: bool, responseNull: bool, asWritten: bool): (r: Reply)
    ensures r.Reply? && r.status == 0 <==> allocOk && !responseNull
    ensures r.Reply? && r.status == 0 ==> r.response == Some(ErrorResponse(code))
    ensures r.Reply? && r.status != 0 ==> r.status == -1 && r.response.None?
    ensures r.NullWrite? <==> asWritten && allocOk && responseNull
  {
    if !allocOk then Reply(-1, None)
    else if responseNull then (if asWritten then NullWrite else Reply(-1, None))
    else Reply(0, Some(ErrorResponse(code)))
  }

  /**
   * The error `api_request_handle` answers with, or `None` when the request reaches its handler and
   * the handler succeeds.
   */
  function RequestError(argsNull: bool, requestType: nat, handlerStatus: int): (r: Option<nat>)
    ensures r == Some(API_RESPONSE_ERROR_INVALID_DATA) <==> argsNull
    ensures r == Some(API_RESPONSE_ERROR_INVALID_MSG_TYPE) <==> !argsNull && requestType != API_REQUEST_TYPE_GET_CONTROL
    ensures r == Some(API_RESPONSE_ERROR_INTERNAL_ERROR) <==>
              !argsNull && requestType == API_REQUEST_TYPE_GET_CONTROL && handlerStatus != 0
    ensures r.None? <==> !argsNull && requestType == API_REQUEST_TYPE_GET_CONTROL && handlerStatus == 0
  {
    if argsNull then Some(API_RESPONSE_ERROR_INVALID_DATA)
    else if requestType >= |REQUEST_HANDLERS| then Some(API_RESPONSE_ERROR_INVALID_MSG_TYPE)
    else if !REQUEST_HANDLERS[requestType] then Some(API_RESPONSE_ERROR_INVALID_MSG_TYPE)
    else if handlerStatus != 0 then Some(API_RESPONSE_ERROR_INTERNAL_ERROR)
    else None
  }

  function RequestHandleWith(ctxNull: bool, requestNull: bool, responseNull: bool, requestType: nat, env: Env, asWritten: bool): (r: Reply)
    ensures r == Reply(0, Some(HandlerResponse(requestType))) <==>
              RequestError(ctxNull || requestNull || responseNull, requestType, env.handlerStatus).None?
  {
    match RequestError(ctxNull || requestNull || responseNull, requestType, env.handlerStatus)
    case Some(code) => ErrorReplyWith(code, env.allocOk, responseNull, asWritten)
    case None => Reply(0, Some(HandlerResponse(requestType)))
  }

  /** `api_request_handle` as written. */
  function RequestHandleAsWritten(ctxNull: bool, requestNull: bool, responseNull: bool, requestType: nat, env: Env): (r: Reply)
    ensures r.NullWrite? <==> responseNull && env.allocOk
  {
    RequestHandleWith(ctxNull, requestNull, responseNull, requestType, env, true)
  }

  /** `api_request_handle`, a null `response` answered without a store through it. */
  function RequestHandle(ctxNull: bool, requestNull: bool, responseNull: bool, requestType: nat, env: Env): (r: Reply)
    ensures r.Reply?
    ensures r == Reply(0, Some(HandlerResponse(requestType))) <==>
              !ctxNull && !requestNull && !responseNull && requestType == API_REQUEST_TYPE_GET_CONTROL && env.handlerStatus == 0
    ensures responseNull ==> r == Reply(-1, None)
  {
    RequestHandleWith(ctxNull, requestNull, responseNull, requestType, env, false)
  }

  /**
   * The error the header guards of `internal_unsafe_api_handle` answer with, or `None` when the
   * request goes on to `api_request_handle`.  `apiVersion` is the version this build speaks.
   */
  function HeaderError(request: Option<seq<byte>>, outsNull: bool, apiVersion: ElemVersion): (r: Option<nat>)
    ensures r == Some(API_RESPONSE_ERROR_INVALID_DATA) <==>
              request.None? || outsNull || |request.value| < API_HEADER_SIZE || U32At(request.value, 0) != AMEBA_MAGIC
    ensures r == Some(API_RESPONSE_ERROR_INVALID_VERSION) <==>
              request.Some? && !outsNull && API_HEADER_SIZE <= |request.value| && U32At(request.value, 0) == AMEBA_MAGIC
              && DecodeVersion(request.value, 4) != apiVersion
    ensures r.None? <==>
              request.Some? && !outsNull && API_HEADER_SIZE <= |request.value| && U32At(request.value, 0) == AMEBA_MAGIC
              && DecodeVersion(request.value, 4) == apiVersion
  {
    if request.None? || outsNull then Some(API_RESPONSE_ERROR_INVALID_DATA)
    else if |request.value| < API_HEADER_SIZE then Some(API_RESPONSE_ERROR_INVALID_DATA)
    else if U32At(request.value, 0) != AMEBA_MAGIC then Some(API_RESPONSE_ERROR_INVALID_DATA)
    else if DecodeVersion(request.value, 4) != apiVersion then Some(API_RESPONSE_ERROR_INVALID_VERSION)
    else None
  }

  /**
   * `internal_unsafe_api_handle` as written: only the api header is checked for size, and the
   * request type is read from the four bytes after it, whether the request holds them or not;
   * `beyond` is the memory that follows the request.
   */
  function InternalHandleAsWritten(request: Option<seq<byte>>, responseNull: bool, sizeNull: bool,
                                   apiVersion: ElemVersion, env: Env, beyond: seq<byte>): (r: Reply)
    requires request.Some? ==> |request.value| + |beyond| >= API_REQUEST_HEADER_SIZE
    ensures r.NullWrite? <==> responseNull && env.allocOk
    ensures r.Reply? && r.response.Some? && r.response.value.HandlerResponse? ==>
              HeaderError(request, responseNull || sizeNull, apiVersion).None?
  {
    match HeaderError(request, responseNull || sizeNull, apiVersion)
    case Some(code) => ErrorReplyWith(code, env.allocOk, responseNull, true)
    case None => RequestHandleAsWritten(false, false, false, U32At(request.value + beyond, API_HEADER_SIZE), env)
  }

  /**
   * `internal_unsafe_api_handle` with a request shorter than `struct api_request_header` refused as
   * invalid data and a null `response` answered without a store through it.
   */
  function InternalHandle(request: Option<seq<byte>>, responseNull: bool, sizeNull: bool,
                          apiVersion: ElemVersion, env: Env): (r: Reply)
    ensures r.Reply?
    ensures r == Reply(0, Some(HandlerResponse(API_REQUEST_TYPE_GET_CONTROL))) <==>
              HeaderError(request, responseNull || sizeNull, apiVersion).None? && API_REQUEST_HEADER_SIZE <= |request.value|
              && U32At(request.value, API_HEADER_SIZE) == API_REQUEST_TYPE_GET_CONTROL && env.handlerStatus == 0
    ensures r.Reply? && r.response.Some? && r.response.value.HandlerResponse? ==>
              r.response.value.requestType == API_REQUEST_TYPE_GET_CONTROL
    ensures responseNull ==> r == Reply(-1, None)
  {
    match HeaderError(request, responseNull || sizeNull, apiVersion)
    case Some(code) => ErrorReplyWith(code, env.allocOk, responseNull, false)
    case None =>
      if |request.value| < API_REQUEST_HEADER_SIZE then
        ErrorReplyWith(API_RESPONSE_ERROR_INVALID_DATA, env.allocOk, responseNull, false)
      else RequestHandle(false, false, false, U32At(request.value, API_HEADER_SIZE), env)
  }

  /** `api_handle`: an internal error when the lock cannot be taken, otherwise the guarded handling. */
  function ApiHandle(lockAcquired: bool, request: Option<seq<byte>>, responseNull: bool, sizeNull: bool,
                     apiVersion: ElemVersion, env: Env): (r: Reply)
    ensures r.Reply?
    ensures !lockAcquired && env.allocOk && !responseNull ==> r == Reply(0, Some(ErrorResponse(API_RESPONSE_ERROR_INTERNAL_ERROR)))
    ensures r.Reply? && r.response.Some? && r.response.value.HandlerResponse? ==> lockAcquired && env.handlerStatus == 0
  {
    if !lockAcquired then ErrorReplyWith(API_RESPONSE_ERROR_INTERNAL_ERROR, env.allocOk, responseNull, false)
    else InternalHandle(request, responseNull, sizeNull, apiVersion, env)
  }

  /**
   * A request built by a client of the same api version reaches the handler table with the type it
   * was built with, whatever payload follows the header.
   */
  lemma ClientRequestDispatched(version: ElemVersion, requestType: nat, payload: seq<byte>, env: Env)
    requires ValidVersion(version) && requestType < 0x1_0000_0000
    ensures InternalHandle(Some(RequestHeader(version, requestType) + payload), false, false, version, env)
            == RequestHandle(false, false, false, requestType, env)
  {
    var bs := RequestHeader(version, requestType) + payload;
    assert bs[0..4] == U32Bytes(AMEBA_MAGIC);
    U32AtBytes(bs, 0, AMEBA_MAGIC);
    assert bs[4..8] == VersionBytes(version);
    DecodeVersionBytes(bs, 4, version);
    assert bs[8..12] == U32Bytes(requestType);
    U32AtBytes(bs, 8, requestType);
  }

  /** A get-control request of the same version whose handler succeeds is answered by the handler. */
  lemma GetControlAnswered(version: ElemVersion, payload: seq<byte>, env: Env)
    requires ValidVersion(version) && env.handlerStatus == 0
    ensures InternalHandle(Some(RequestHeader(version, API_REQUEST_TYPE_GET_CONTROL) + payload), false, false, version, env)
            == Reply(0, Some(HandlerResponse(API_REQUEST_TYPE_GET_CONTROL)))
  {
    ClientRequestDispatched(version, API_REQUEST_TYPE_GET_CONTROL, payload, env);
  }

  /** A request built for another api version is refused with INVALID_VERSION before any dispatch. */
  lemma OtherVersionRefused(version: ElemVersion, apiVersion: ElemVersion, requestType: nat, payload: seq<byte>, env: Env)
    requires ValidVersion(version) && requestType < 0x1_0000_0000 && version != apiVersion
    ensures InternalHandle(Some(RequestHeader(version, requestType) + payload), false, false, apiVersion, env)
            == ErrorReplyWith(API_RESPONSE_ERROR_INVALID_VERSION, env.allocOk, false, false)
  {
    var bs := RequestHeader(version, requestType) + payload;
    assert bs[0..4] == U32Bytes(AMEBA_MAGIC);
    U32AtBytes(bs, 0, AMEBA_MAGIC);
    assert bs[4..8] == VersionBytes(version);
    DecodeVersionBytes(bs, 4, version);
  }

  /**
   * As written, an eight-byte request with a valid header is dispatched on four bytes it does not
   * hold: the same request reaches the get-control handler or is refused as an unknown type
   * depending on the memory after it.  Refusing short requests answers INVALID_DATA instead.
   */
  lemma RequestTypeReadPastEnd(header: seq<byte>, apiVersion: ElemVersion, env: Env)
    requires |header| == API_HEADER_SIZE && HeaderError(Some(header), false, apiVersion).None?
    requires env.allocOk && env.handlerStatus == 0
    ensures InternalHandleAsWritten(Some(header), false, false, apiVersion, env, U32Bytes(1))
            == Reply(0, Some(HandlerResponse(API_REQUEST_TYPE_GET_CONTROL)))
    ensures InternalHandleAsWritten(Some(header), false, false, apiVersion, env, U32Bytes(2))
            == Reply(0, Some(ErrorResponse(API_RESPONSE_ERROR_INVALID_MSG_TYPE)))
    ensures InternalHandle(Some(header), false, false, apiVersion, env)
            == Reply(0, Some(ErrorResponse(API_RESPONSE_ERROR_INVALID_DATA)))
  {
    U32AtBytes(header + U32Bytes(1), API_HEADER_SIZE, 1);
    U32AtBytes(header + U32Bytes(2), API_HEADER_SIZE, 2);
  }

  /** On requests that hold a whole request header and a non-null `response`, the correction changes nothing. */
  lemma {:induction false} WholeRequestsUnchanged(request: seq<byte>, sizeNull: bool, apiVersion: ElemVersion, env: Env, beyond: seq<byte>)
    requires API_REQUEST_HEADER_SIZE <= |request|
    ensures InternalHandleAsWritten(Some(request), false, sizeNull, apiVersion, env, beyond)
            == InternalHandle(Some(request), false, sizeNull, apiVersion, env)
  {
    var whole := request + beyond;
    assert whole[8] == request[8] && whole[9] == request[9] && whole[10] == request[10] && whole[11] == request[11];
    assert U32At(whole, API_HEADER_SIZE) == U32At(request, API_HEADER_SIZE);
  }

  /**
   * As written, a null `response` with any request is answered by storing the INVALID_DATA error
   * response through it, both in `internal_unsafe_api_handle` and in `api_request_handle`;
   * corrected, the answer is -1 with nothing stored.
   */
  lemma NullResponseStoredThroughAsWritten(request: Option<seq<byte>>, sizeNull: bool, apiVersion: ElemVersion,
                                           requestType: nat, handlerStatus: int)
    requires request.Some? ==> API_REQUEST_HEADER_SIZE <= |request.value|
    ensures InternalHandleAsWritten(request, true, sizeNull, apiVersion, Env(true, handlerStatus), []) == NullWrite
    ensures RequestHandleAsWritten(false, false, true, requestType, Env(true, handlerStatus)) == NullWrite
    ensures InternalHandle(request, true, sizeNull, apiVersion, Env(true, handlerStatus)) == Reply(-1, None)
    ensures RequestHandle(false, false, true, requestType, Env(true, handlerStatus)) == Reply(-1, None)
  {
  }

  /** The api lock: `api_handle` holds it while a request is handled and releases it after. */
  class ApiServer {
    var lockHeld: bool

    constructor()
      ensures !lockHeld
    {
      lockHeld := false;
    }

    /** `api_handle`, with whether `lock_acquire` succeeds given. */
    method Handle(lockAcquired: bool, request: Option<seq<byte>>, responseNull: bool, sizeNull: bool,
                  apiVersion: ElemVersion, env: Env) returns (r: Reply)
      requires !lockHeld
      modifies this
      ensures !lockHeld
      ensures r == ApiHandle(lockAcquired, request, responseNull, sizeNull, apiVersion, env)
    {
      if !lockAcquired {
        return ErrorReplyWith(API_RESPONSE_ERROR_INTERNAL_ERROR, env.allocOk, responseNull, false);
      }
      lockHeld := true;
      r := InternalHandle(request, responseNull, sizeNull, apiVersion, env);
      lockHeld := false;
    }
  }
}
