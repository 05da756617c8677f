/** The record language a Lambda invocation speaks back to the gateway, and the pure helpers
    that turn one record into the pieces of an HTTP response. */
module Wire {
  datatype Option<+T> = None | Some(value: T) {
    function GetOr(default: T): T {
      if Some? then value else default
    }
  }

  datatype Result<+T, +E> = Ok(value: T) | Err(error: E)

  type Byte = b: int | 0 <= b < 256
  type Bytes = seq<Byte>
  type Id = string

  predicate NoRepeats(ids: seq<Id>) {
    forall i, j | 0 <= i < j < |ids| :: ids[i] != ids[j]
  }

  function Elements(ids: seq<Id>): set<Id> {
    set id | id in ids
  }

  /** Response header fields in emission order. */
  type Headers = seq<(string, string)>

  const LF: Byte := 10
  const CR: Byte := 13

  /** One NDJSON record. `Legacy` is a whole response; the others are the interleaved kinds. */
  datatype Record =
    | Legacy(v: int, id: Id, status: nat, headers: map<string, string>, cookies: seq<string>,
             body: string, isBase64: bool)
    | Head(v: int, id: Id, headStatus: Option<nat>, headers: map<string, string>, cookies: seq<string>)
    | Chunk(v: int, id: Id, chunkBody: Option<string>, isBase64: bool)
    | End(v: int, id: Id)
    | Error(v: int, id: Id, errorStatus: Option<nat>, message: Option<string>)

  /** Why the parts of a response were refused. */
  datatype PartsError = StatusError | HeaderError | CookieError | BodyError

  /** An error that ends a whole response stream. */
  datatype Fault =
    | BadNdjson(detail: string)
    | UnsupportedVersion(version: int)
    | BadResponse(cause: PartsError)
    | BadHead(cause: PartsError)
    | BadChunkBody

  /** Why a piece of a batch is not invoked. */
  datatype Reason = EncodeFailed | PayloadTooLarge

  /** Text bodies the gateway writes itself. */
  datatype Message =
    | OfFault(fault: Fault)
    | StreamError
    | StreamTooLarge
    | MissingRecord
    | BadItem(cause: PartsError)
    | Undecodable(detail: string)
    | WrongVersion(version: int)
    | Reported(text: string)
    | NotInvoked(reason: Reason)
    | Overloaded
    | InvokeFailed(detail: string)
    | UnexpectedResponse

  datatype Body = Raw(bytes: Bytes) | Text(message: Message)
  datatype Meta = Meta(batchSize: nat, waitMs: nat)
  datatype Response = Response(status: nat, headers: Headers, body: Body, meta: Option<Meta>)
  datatype StreamHead = StreamHead(status: nat, headers: Headers, meta: Meta)

  const BAD_GATEWAY: nat := 502

  /** The libraries the gateway calls: JSON, the `http` crate's header types, base64, UTF-8. */
  datatype Lib = Lib(
    parse: Bytes -> Result<Record, string>,
    headerMap: map<string, string> -> Option<Headers>,
    cookieOk: string -> bool,
    trim: string -> string,
    base64: string -> Option<Bytes>,
    encode64: Bytes -> string,
    utf8: string -> Bytes)

  /** `http::StatusCode::from_u16` accepts exactly the three-digit codes. */
  predicate StatusOk(code: nat) {
    100 <= code < 1000
  }

  /** An empty map never reaches the header constructors. */
  function HeadersFromMap(lib: Lib, m: map<string, string>): Option<Headers> {
    if m == map[] then Some([]) else lib.headerMap(m)
  }

  function AppendCookies(lib: Lib, headers: Headers, cookies: seq<string>): Option<Headers>
    decreases cookies
  {
    if cookies == [] then Some(headers)
    else
      var cookie := lib.trim(cookies[0]);
      if cookie == "" then AppendCookies(lib, headers, cookies[1..])
      else if lib.cookieOk(cookie) then AppendCookies(lib, headers + [("set-cookie", cookie)], cookies[1..])
      else None
  }

  function DecodeBody(lib: Lib, body: string, isBase64: bool): Option<Bytes> {
    if isBase64 then lib.base64(body) else Some(lib.utf8(body))
  }

  /** The status, header and cookie checks shared by whole responses and stream heads. */
  function HeadParts(lib: Lib, status: nat, headers: map<string, string>, cookies: seq<string>)
    : Result<Headers, PartsError>
  {
    if !StatusOk(status) then Err(StatusError)
    else match HeadersFromMap(lib, headers)
      case None => Err(HeaderError)
      case Some(h) =>
        match AppendCookies(lib, h, cookies)
        case None => Err(CookieError)
        case Some(all) => Ok(all)
  }

  function ResponseParts(lib: Lib, status: nat, headers: map<string, string>, cookies: seq<string>,
                         body: string, isBase64: bool): Result<Response, PartsError>
  {
    match HeadParts(lib, status, headers, cookies)
    case Err(e) => Err(e)
    case Ok(h) =>
      match DecodeBody(lib, body, isBase64)
      case None => Err(BodyError)
      case Some(bytes) => Ok(Response(status, h, Raw(bytes), None))
  }

  function TextResponse(status: nat, message: Message, meta: Meta): Response {
    Response(status, [], Text(message), Some(meta))
  }
}
