/** The response records of models/response.py and their `to_dict`
    serialisation. The three dataclasses are values (nothing mutates them);
    `to_dict` builds a local dictionary and inserts optional keys. */
module Response {
  import opened Wrappers

  const SuccessStatus: string := "success"
  const ErrorStatus: string := "error"

  /** A value of the dictionary `to_dict` returns: a string, or the caller's
      `data` payload, kept opaque. */
  datatype DictValue<D> = Str(text: string) | Data(payload: D)

  /** `BaseResponse`, `SuccessResponse` (which adds `data`) and `ErrorResponse`. */
  datatype Response<D> =
    | BaseResponse(status: string, message: Option<string>)
    | SuccessResponse(status: string, message: Option<string>, data: Option<D>)
    | ErrorResponse(status: string, message: Option<string>)

  /** `SuccessResponse(...)` with its dataclass defaults: status "success",
      no message, no data unless given. */
  function NewSuccessResponse<D>(message: Option<string> := None, data: Option<D> := None): (r: Response<D>)
    ensures r.SuccessResponse? && r.status == SuccessStatus
    ensures r.message == message && r.data == data
  {
    SuccessResponse(SuccessStatus, message, data)
  }

  /** `ErrorResponse(...)` with its dataclass default status "error". */
  function NewErrorResponse<D>(message: Option<string> := None): (r: Response<D>)
    ensures r.ErrorResponse? && r.status == ErrorStatus && r.message == message
  {
    ErrorResponse(ErrorStatus, message)
  }

  /** The dictionary `BaseResponse.to_dict` produces: always "status"; "message"
      exactly when the message is not None; nothing else. */
  function BaseDict<D>(status: string, message: Option<string>): (d: map<string, DictValue<D>>)
    ensures "status" in d && d["status"] == Str(status)
    ensures "message" in d <==> message.Some?
    ensures message.Some? ==> d["message"] == Str(message.value)
    ensures d.Keys <= {"status", "message"}
  {
    if message.Some? then map["status" := Str(status), "message" := Str(message.value)]
    else map["status" := Str(status)]
  }

  /** `BaseResponse.to_dict`, building the dictionary step by step. */
  method BaseToDict<D>(status: string, message: Option<string>) returns (result: map<string, DictValue<D>>)
    ensures result == BaseDict(status, message)
  {
    result := map["status" := Str(status)];
    if message.Some? {
      result := result["message" := Str(message.value)];
    }
  }

  /** `to_dict` of each response kind. `SuccessResponse.to_dict` starts from
      the base dictionary and adds only "data", and only when data is not None;
      the other two kinds never have "data". */
  method ToDict<D>(r: Response<D>) returns (result: map<string, DictValue<D>>)
    ensures result - {"data"} == BaseDict(r.status, r.message)
    ensures "data" in result <==> r.SuccessResponse? && r.data.Some?
    ensures r.SuccessResponse? && r.data.Some? ==> result["data"] == Data(r.data.value)
  {
    result := BaseToDict(r.status, r.message);
    if r.SuccessResponse? && r.data.Some? {
      result := result["data" := Data(r.data.value)];
    }
  }
}
