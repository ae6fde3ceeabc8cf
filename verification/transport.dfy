/**
 The internal plumbing of src/lib.rs: how a handler settles the base URL and token it uses,
 the request `request` (GET) and `post` build from them, and how a reply is read. The HTTP
 exchange itself is not modelled: a reply is an input, given as the status line and the body
 in the three forms the handlers read it (bytes, text, parsed JSON).
 */
module Transport {
  import opened Wrappers
  import opened Json

  /** The values of `HA_URL` and `HA_TOKEN` the process environment supplies, if any. */
  datatype Env = Env(url: Option<string>, token: Option<string>)

  /** The base URL and bearer token a call uses. */
  datatype Credentials = Credentials(url: string, token: string)

  /** reqwest's `StatusCode`: a three-digit code. */
  type StatusCode = s: int | 100 <= s <= 999 witness 200

  type Byte = b: int | 0 <= b < 256

  datatype Error =
    | MissingCredential(message: string)  // neither an argument nor the environment gave it
    | HttpStatus(status: StatusCode)      // a status-checked handler got a non-2xx reply
    | SendFailed                          // the request could not be sent or its body read
    | Undecodable                         // the body is not JSON of the expected shape
    | Unserializable                      // serde refused to write the request body
    | Unimplemented                       // the endpoint panics before doing anything

  /** `Validate::arg`: only presence is checked, so an explicit empty string is accepted. */
  function Arg(explicit: Option<string>): (r: Result<string, string>)
    ensures r.Success? <==> explicit.Some?
    ensures r.Success? ==> r.value == explicit.value
  {
    match explicit
    case Some(s) => Success(s)
    case None => Failure("Seems empty")
  }

  /** One credential: the explicit argument if given, else the environment's, else `missing`. */
  function ResolveOne(explicit: Option<string>, fallback: Option<string>, missing: string): Result<string, Error> {
    match Arg(explicit)
    case Success(s) => Success(s)
    case Failure(_) =>
      match fallback
      case Some(s) => Success(s)
      case None => Failure(MissingCredential(missing))
  }

  /**
   The preamble of every handler: the URL is settled first, then the token, each from the
   explicit argument when one is given (whatever it holds) and from the environment otherwise.
   */
  function Resolve(url: Option<string>, token: Option<string>, env: Env): (r: Result<Credentials, Error>)
    ensures r.Success? <==> (url.Some? || env.url.Some?) && (token.Some? || env.token.Some?)
    ensures r.Success? && url.Some? ==> r.value.url == url.value
    ensures r.Success? && url.None? ==> env.url == Some(r.value.url)
    ensures r.Success? && token.Some? ==> r.value.token == token.value
    ensures r.Success? && token.None? ==> env.token == Some(r.value.token)
    ensures url.None? && env.url.None? ==> r == Failure(MissingCredential("HA_URL is required"))
    ensures (url.Some? || env.url.Some?) && token.None? && env.token.None? ==>
      r == Failure(MissingCredential("HA_TOKEN is required"))
  {
    var u :- ResolveOne(url, env.url, "HA_URL is required");
    var t :- ResolveOne(token, env.token, "HA_TOKEN is required");
    Success(Credentials(u, t))
  }

  datatype Method = Get | Post

  /** A request as it goes out: verb, full URL, bearer token, and JSON body text if any. */
  datatype Request = Request(verb: Method, url: string, bearer: string, body: Option<string>)

  /** `request`: a bodyless GET of the base URL with `target` appended as it is. */
  function GetRequest(c: Credentials, target: string): (r: Request)
    ensures r.verb == Get && r.bearer == c.token && r.body.None?
    ensures |r.url| == |c.url| + |target| && r.url[..|c.url|] == c.url && r.url[|c.url|..] == target
  {
    Request(Get, c.url + target, c.token, None)
  }

  /**
   `post`: a POST of the base URL with `target` appended as it is. `body` is the value to
   send, or `None` when serde refused to write it, which fails the call before anything is
   sent. The body is attached when its text is non-empty, which every JSON text is, so the
   bodyless branch of the source never runs.
   */
  function PostRequest(c: Credentials, target: string, body: Option<Value>): (r: Result<Request, Error>)
    ensures r.Failure? <==> body.None?
    ensures r.Failure? ==> r.error == Unserializable
    ensures r.Success? ==> r.value.verb == Post && r.value.bearer == c.token
    ensures r.Success? ==> |r.value.url| == |c.url| + |target| && r.value.url[..|c.url|] == c.url && r.value.url[|c.url|..] == target
    ensures r.Success? ==> r.value.body == Some(Serialize(body.value))
  {
    match body
    case None => Failure(Unserializable)
    case Some(v) =>
      var text := Serialize(v);
      if |text| != 0 then Success(Request(Post, c.url + target, c.token, Some(text)))
      else Success(Request(Post, c.url + target, c.token, None))
  }

  /** The base URL and target are joined as they are: a trailing and a leading slash both stay. */
  lemma NoSlashNormalisation(c: Credentials, target: string)
    requires |c.url| > 0 && c.url[|c.url| - 1] == '/'
    requires |target| > 0 && target[0] == '/'
    ensures GetRequest(c, target).url[|c.url| - 1..|c.url| + 1] == "//"
  {
    var u := GetRequest(c, target).url;
    assert u[|c.url| - 1] == c.url[|c.url| - 1];
    assert u[|c.url|] == target[0];
  }

  /** A response body as bytes, as text, and parsed as JSON (`None` when it is not JSON). */
  datatype Payload = Payload(bytes: seq<Byte>, text: string, json: Option<Value>)

  /**
   What came back for a request: nothing (`NoReply`, the send failed), or a status with a
   body that is `None` when reading it failed.
   */
  datatype Reply = NoReply | Reply(status: StatusCode, body: Option<Payload>)

  /** reqwest's `is_success`: a 2xx status. */
  predicate IsSuccess(status: StatusCode) {
    200 <= status <= 299
  }

  /** The parsed JSON body of a reply, when there is one. */
  function JsonBody(reply: Reply): Option<Value> {
    match reply
    case NoReply => None
    case Reply(_, body) =>
      match body
      case None => None
      case Some(p) => p.json
  }

  /** `.json::<T>()`: the body read as a `T`, whatever the status. */
  function ReadJson<T(==)>(reply: Reply, decode: Value -> Option<T>): (r: Result<T, Error>)
    ensures r.Success? <==> JsonBody(reply).Some? && decode(JsonBody(reply).value).Some?
    ensures r.Success? ==> decode(JsonBody(reply).value) == Some(r.value)
    ensures reply.NoReply? ==> r == Failure(SendFailed)
  {
    match reply
    case NoReply => Failure(SendFailed)
    case Reply(_, body) =>
      match body
      case None => Failure(SendFailed)
      case Some(p) =>
        match p.json
        case None => Failure(Undecodable)
        case Some(v) =>
          match decode(v)
          case None => Failure(Undecodable)
          case Some(x) => Success(x)
  }

  /**
   The status check most handlers make before reading: a non-2xx status is the error,
   carrying that status, and the body is not looked at.
   */
  function Checked<T(==)>(reply: Reply, decode: Value -> Option<T>): (r: Result<T, Error>)
    ensures reply.NoReply? ==> r == Failure(SendFailed)
    ensures reply.Reply? && !IsSuccess(reply.status) ==> r == Failure(HttpStatus(reply.status))
    ensures reply.Reply? && IsSuccess(reply.status) ==> r == ReadJson(reply, decode)
  {
    match reply
    case NoReply => Failure(SendFailed)
    case Reply(status, _) =>
      if !IsSuccess(status) then Failure(HttpStatus(status)) else ReadJson(reply, decode)
  }

  /** `.text()`: the body as text, whatever the status. */
  function ReadText(reply: Reply): (r: Result<string, Error>)
    ensures r.Success? <==> reply.Reply? && reply.body.Some?
    ensures r.Success? ==> r.value == reply.body.value.text
  {
    match reply
    case NoReply => Failure(SendFailed)
    case Reply(_, body) =>
      match body
      case None => Failure(SendFailed)
      case Some(p) => Success(p.text)
  }

  /** `.bytes()`: the body as bytes, whatever the status. */
  function ReadBytes(reply: Reply): (r: Result<seq<Byte>, Error>)
    ensures r.Success? <==> reply.Reply? && reply.body.Some?
    ensures r.Success? ==> r.value == reply.body.value.bytes
  {
    match reply
    case NoReply => Failure(SendFailed)
    case Reply(_, body) =>
      match body
      case None => Failure(SendFailed)
      case Some(p) => Success(p.bytes)
  }
}
