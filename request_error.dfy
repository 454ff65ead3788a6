/**
 * JSON-RPC error values: `RequestError`, `RequestErrorData` and `ErrorData`,
 * each decoded from a string-keyed dictionary with explicit defaults.
 *
 * The `ErrorType` enumeration is not part of this model; it is given as the
 * partial map from raw values to cases that `ErrorType(rawValue:)` computes,
 * together with its `unknownError` case.
 */
module RequestErrors {
  import opened Wrappers
  import opened JsonValues

  datatype ErrorCase = ErrorCase(name: string, message: string)

  /** `ErrorType`: the cases by raw value, and the case used for unknown codes. */
  datatype ErrorTypes = ErrorTypes(cases: map<int, ErrorCase>, unknownError: ErrorCase)

  datatype ErrorData = ErrorData(message: Option<string>, data: Option<string>)

  datatype RequestErrorData = RequestErrorData(message: Option<string>, data: Option<ErrorData>)

  datatype RequestError = RequestError(code: int, message: string, data: Option<RequestErrorData>)

  /** The code every SDK-side static error carries. */
  const SDK_ERROR_CODE: int := -101

  /** `ErrorData.init(from:)`: each field is taken only when it is a string. */
  function DecodeErrorData(info: Object): (r: ErrorData)
    ensures r.message.Some? <==> "message" in info && info["message"].JString?
    ensures r.message.Some? ==> info["message"] == JString(r.message.value)
    ensures r.data.Some? <==> "data" in info && info["data"].JString?
    ensures r.data.Some? ==> info["data"] == JString(r.data.value)
  {
    ErrorData(StringAt(info, "message"), StringAt(info, "data"))
  }

  /** `RequestErrorData.init(from:)`: a string message, and nested data only when it is a dictionary. */
  function DecodeRequestErrorData(info: Object): (r: RequestErrorData)
    ensures r.message.Some? <==> "message" in info && info["message"].JString?
    ensures r.message.Some? ==> info["message"] == JString(r.message.value)
    ensures r.data.Some? <==> "data" in info && info["data"].JObject?
    ensures r.data.Some? ==> r.data.value == DecodeErrorData(info["data"].fields)
  {
    var nested := ObjectAt(info, "data");
    RequestErrorData(
      StringAt(info, "message"),
      if nested.Some? then Some(DecodeErrorData(nested.value)) else None)
  }

  /** The message of `ErrorType(rawValue: code)`, when that case exists. */
  function CaseMessage(types: ErrorTypes, code: int): Option<string> {
    if code in types.cases then Some(types.cases[code].message) else None
  }

  /** `RequestError.init(from:)`. */
  function DecodeRequestError(types: ErrorTypes, info: Object): (r: RequestError)
    ensures IsInt(r.code)
    ensures r.code != -1 ==> "code" in info && info["code"] == JNumber(r.code)
    ensures ("code" in info && info["code"].JNumber? && IsInt(info["code"].n)) ==> info["code"] == JNumber(r.code)
    ensures r.data.Some? <==> "data" in info && info["data"].JObject?
    ensures r.data.Some? ==> r.data.value == DecodeRequestErrorData(info["data"].fields)
  {
    var code := IntAt(info, "code").GetOr(-1);
    var nested := ObjectAt(info, "data");
    RequestError(
      code,
      StringAt(info, "message").GetOr(CaseMessage(types, code).GetOr("")),
      if nested.Some? then Some(DecodeRequestErrorData(nested.value)) else None)
  }

  /** `localizedDescription`. */
  function LocalizedDescription(e: RequestError): string {
    e.message
  }

  /** `codeType`: the `ErrorType` case of the code, `unknownError` when there is none. */
  function CodeType(types: ErrorTypes, e: RequestError): (t: ErrorCase)
    ensures e.code in types.cases ==> t == types.cases[e.code]
    ensures e.code !in types.cases ==> t == types.unknownError
  {
    if e.code in types.cases then types.cases[e.code] else types.unknownError
  }

  /** The dictionary each static error is built from. */
  function SdkErrorInfo(message: string): Object {
    map["code" := JNumber(SDK_ERROR_CODE), "message" := JString(message)]
  }

  function ConnectError(types: ErrorTypes): (e: RequestError)
    ensures e == RequestError(-101, "Not connected. Please call connect(:Dapp) first", None)
  {
    DecodeRequestError(types, SdkErrorInfo("Not connected. Please call connect(:Dapp) first"))
  }

  function InvalidUrlError(types: ErrorTypes): (e: RequestError)
    ensures e == RequestError(-101, "Please use a valid url in AppMetaData", None)
  {
    DecodeRequestError(types, SdkErrorInfo("Please use a valid url in AppMetaData"))
  }

  function InvalidTitleError(types: ErrorTypes): (e: RequestError)
    ensures e == RequestError(-101, "Please use a valid name in AppMetaData", None)
  {
    DecodeRequestError(types, SdkErrorInfo("Please use a valid name in AppMetaData"))
  }

  function InvalidBatchRequestError(types: ErrorTypes): (e: RequestError)
    ensures e == RequestError(-101, "Something went wrong, check that your requests are valid", None)
  {
    DecodeRequestError(types, SdkErrorInfo("Something went wrong, check that your requests are valid"))
  }

  // The encoders Swift synthesises for these `Codable` records: optional
  // fields that are nil are left out of the dictionary.

  function EncodeErrorData(d: ErrorData): Object {
    (if d.message.Some? then map["message" := JString(d.message.value)] else map[])
    + (if d.data.Some? then map["data" := JString(d.data.value)] else map[])
  }

  function EncodeRequestErrorData(d: RequestErrorData): Object {
    (if d.message.Some? then map["message" := JString(d.message.value)] else map[])
    + (if d.data.Some? then map["data" := JObject(EncodeErrorData(d.data.value))] else map[])
  }

  function EncodeRequestError(e: RequestError): Object {
    map["code" := JNumber(e.code), "message" := JString(e.message)]
    + (if e.data.Some? then map["data" := JObject(EncodeRequestErrorData(e.data.value))] else map[])
  }

  /** Decoding what was encoded gives the error back, whatever the `ErrorType` table. */
  lemma ErrorDataRoundTrip(d: ErrorData)
    ensures DecodeErrorData(EncodeErrorData(d)) == d
  {
  }

  lemma RequestErrorDataRoundTrip(d: RequestErrorData)
    ensures DecodeRequestErrorData(EncodeRequestErrorData(d)) == d
  {
    if d.data.Some? {
      ErrorDataRoundTrip(d.data.value);
    }
  }

  lemma RequestErrorRoundTrip(types: ErrorTypes, e: RequestError)
    requires IsInt(e.code)
    ensures DecodeRequestError(types, EncodeRequestError(e)) == e
  {
    if e.data.Some? {
      RequestErrorDataRoundTrip(e.data.value);
    }
  }

  /** The message fallback chain: the string message, else the message of the code's case, else "". */
  lemma DescriptionFallbackChain(types: ErrorTypes, info: Object)
    ensures var d := LocalizedDescription(DecodeRequestError(types, info));
      if "message" in info && info["message"].JString? then d == info["message"].s
      else if "code" in info && info["code"].JNumber? && IsInt(info["code"].n) then
        (if info["code"].n in types.cases then d == types.cases[info["code"].n].message else d == "")
      else if -1 in types.cases then d == types.cases[-1].message
      else d == ""
  {
  }

  /** Without a string message the description is the message of `codeType`, unless the code is unknown. */
  lemma DescriptionAgreesWithCodeType(types: ErrorTypes, info: Object)
    requires !("message" in info && info["message"].JString?)
    ensures var e := DecodeRequestError(types, info);
      LocalizedDescription(e) == if e.code in types.cases then CodeType(types, e).message else ""
  {
  }

  /** Decoding reads only the `code`, `message` and `data` entries. */
  lemma DecodeIgnoresOtherKeys(types: ErrorTypes, info: Object, extra: Object)
    requires "code" !in extra && "message" !in extra && "data" !in extra
    ensures DecodeRequestError(types, info + extra) == DecodeRequestError(types, info)
  {
    assert IntAt(info + extra, "code") == IntAt(info, "code");
    assert StringAt(info + extra, "message") == StringAt(info, "message");
    assert ObjectAt(info + extra, "data") == ObjectAt(info, "data");
  }
}
