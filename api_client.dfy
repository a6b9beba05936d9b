/**
 * The request layer (packages/api-client): credential selection for the
 * Authorization header, normalisation of thrown values into errors, the
 * success status range, the endpoint paths, the query keys and what each
 * mutation invalidates once it succeeds.
 */
module ApiClient {
  import opened Wrappers
  import opened Types
  import opened Strings
  import opened QueryCache
  import Browser

  const BearerPrefix := "Bearer "
  const AuthorizationHeader := "Authorization"
  const DefaultAdvanceSteps := 1
  const DefaultMaxAttempts := 10000
  const RequestFailed := "Request failed"
  const UnknownError := "Unknown error"

  // ---------------------------------------------------------------- credentials

  /** The configured token when it is non-empty, else whatever storage holds (possibly nothing). */
  function SelectToken(envToken: Option<string>, storedToken: Option<string>): (t: Option<string>)
    ensures Truthy(envToken) ==> t == envToken
    ensures !Truthy(envToken) ==> t == storedToken
    ensures Truthy(t) <==> Truthy(envToken) || Truthy(storedToken)
  {
    if Truthy(envToken) then envToken else storedToken
  }

  /** The header value for a token: kept as is when it already carries the scheme, else prefixed. */
  function NormalizeBearer(token: string): (h: string)
    ensures StartsWith(h, BearerPrefix)
    ensures StartsWith(token, BearerPrefix) ==> h == token
    ensures !StartsWith(token, BearerPrefix) ==> |h| == |BearerPrefix| + |token| && h[|BearerPrefix|..] == token
  {
    if StartsWith(token, BearerPrefix) then token
    else
      StartsWithConcat(BearerPrefix, token);
      BearerPrefix + token
  }

  /** Normalising a value that is already a header value changes nothing. */
  lemma NormalizeBearerIdempotent(token: string)
    ensures NormalizeBearer(NormalizeBearer(token)) == NormalizeBearer(token)
  {
  }

  /** The Authorization value a request gets, if any. */
  function AuthorizationValue(envToken: Option<string>, storedToken: Option<string>): (v: Option<string>)
    ensures v.Some? <==> Truthy(envToken) || Truthy(storedToken)
    ensures Truthy(envToken) ==> v == Some(NormalizeBearer(envToken.value))
    ensures !Truthy(envToken) && Truthy(storedToken) ==> v == Some(NormalizeBearer(storedToken.value))
  {
    var token := SelectToken(envToken, storedToken);
    if Truthy(token) then Some(NormalizeBearer(token.value)) else None
  }

  /** The outgoing request configuration the interceptor edits in place. */
  class RequestConfig {
    var headers: Option<map<string, string>>

    constructor (headers: Option<map<string, string>>)
      ensures this.headers == headers
    {
      this.headers := headers;
    }
  }

  /**
   * The request interceptor: with a non-empty token it sets the Authorization
   * header (creating the header map if there was none); otherwise the
   * configuration is returned untouched.
   */
  method Intercept(config: RequestConfig, envToken: Option<string>, window: Browser.Window)
    returns (result: RequestConfig)
    modifies config
    ensures result == config
    ensures AuthorizationValue(envToken, window.GetItem(Browser.AuthTokenKey)).None? ==>
      config.headers == old(config.headers)
    ensures AuthorizationValue(envToken, window.GetItem(Browser.AuthTokenKey)).Some? ==>
      config.headers == Some(old(config.headers).GetOr(map[])[AuthorizationHeader :=
        AuthorizationValue(envToken, window.GetItem(Browser.AuthTokenKey)).value])
  {
    var token := SelectToken(envToken, window.GetItem(Browser.AuthTokenKey));
    if Truthy(token) {
      var headers := config.headers.GetOr(map[]);
      config.headers := Some(headers[AuthorizationHeader := NormalizeBearer(token.value)]);
    }
    result := config;
  }

  // ---------------------------------------------------------------- errors

  /** A structured error body, when the response body is an object. */
  datatype ErrorBody = ErrorBody(message: Option<string>, error: Option<string>)

  /** What a failed request can throw. */
  datatype Thrown =
    | AxiosFailure(status: Option<int>, body: Option<ErrorBody>, transportMessage: string)
    | NativeError(message: string)
    | OtherValue

  datatype Error = Error(message: string)

  predicate StatusTruthy(status: Option<int>) {
    status.Some? && status.value != 0
  }

  /**
   * The message the server put in an error body: its `message` field when that
   * is non-empty, else its `error` field; nothing when there is no body.
   */
  function ServerMessage(body: Option<ErrorBody>): (m: Option<string>)
    ensures body.None? ==> m.None?
    ensures body.Some? && Truthy(body.value.message) ==> m == body.value.message
    ensures body.Some? && !Truthy(body.value.message) ==> m == body.value.error
  {
    match body
    case None => None
    case Some(b) => if Truthy(b.message) then b.message else b.error
  }

  /**
   * The text of a failed request's error: the server's message when non-empty,
   * else the transport's own message when non-empty, else a fixed fallback.
   */
  function ChosenMessage(body: Option<ErrorBody>, transportMessage: string): (m: string)
    ensures m != ""
  {
    var serverMsg := ServerMessage(body);
    if Truthy(serverMsg) then serverMsg.value
    else if transportMessage != "" then transportMessage
    else RequestFailed
  }

  /** Normalises any thrown value into an Error. */
  function ToError(e: Thrown): (err: Error)
    ensures e.NativeError? ==> err == Error(e.message)
    ensures e.OtherValue? ==> err.message == UnknownError
    ensures e.AxiosFailure? ==> err.message != ""
    ensures e.AxiosFailure? && StatusTruthy(e.status) ==>
      StartsWith(err.message, IntToString(e.status.value) + ": ")
    ensures e.AxiosFailure? && !StatusTruthy(e.status) ==>
      err.message == ChosenMessage(e.body, e.transportMessage)
  {
    match e
    case AxiosFailure(status, body, transportMessage) =>
      var msg := ChosenMessage(body, transportMessage);
      if StatusTruthy(status) then
        StartsWithConcat(IntToString(status.value) + ": ", msg);
        Error(IntToString(status.value) + ": " + msg)
      else Error(msg)
    case NativeError(m) => Error(m)
    case OtherValue => Error(UnknownError)
  }

  /** Reference reading of a chain of `||`: the first non-empty candidate, else the fallback. */
  function FirstNonEmpty(candidates: seq<Option<string>>, fallback: string): string {
    if candidates == [] then fallback
    else if Truthy(candidates[0]) then candidates[0].value
    else FirstNonEmpty(candidates[1..], fallback)
  }

  function MessageCandidates(body: Option<ErrorBody>, transportMessage: string): seq<Option<string>> {
    match body
    case None => [None, None, Some(transportMessage)]
    case Some(b) => [b.message, b.error, Some(transportMessage)]
  }

  /** The message source order: body `message`, body `error`, transport message, then the fixed fallback. */
  lemma ChosenMessageOrder(body: Option<ErrorBody>, transportMessage: string)
    ensures ChosenMessage(body, transportMessage) ==
      FirstNonEmpty(MessageCandidates(body, transportMessage), RequestFailed)
  {
    var cs := MessageCandidates(body, transportMessage);
    assert cs[1..][1..] == cs[2..] && cs[2..][1..] == [];
    assert FirstNonEmpty(cs[2..], RequestFailed) ==
      if transportMessage != "" then transportMessage else RequestFailed;
    assert FirstNonEmpty(cs[1..], RequestFailed) ==
      if Truthy(cs[1]) then cs[1].value else FirstNonEmpty(cs[2..], RequestFailed);
  }

  /** Splits `"<status>: <message>"` back into its status and message. */
  function SplitStatus(m: string): Option<(int, string)> {
    match IndexOf(m, ':')
    case None => None
    case Some(k) =>
      if k + 1 < |m| && m[k + 1] == ' ' then
        match ParseInt(m[..k])
        case None => None
        case Some(n) => Some((n, m[k + 2..]))
      else None
  }

  /** With a status the error message is `"status: msg"`, from which both parts can be read back. */
  lemma ToErrorStatusRecoverable(e: Thrown)
    requires e.AxiosFailure? && StatusTruthy(e.status)
    ensures SplitStatus(ToError(e).message) == Some((e.status.value, ChosenMessage(e.body, e.transportMessage)))
  {
    var digits := IntToString(e.status.value);
    var msg := ChosenMessage(e.body, e.transportMessage);
    var m := digits + ": " + msg;
    assert ToError(e).message == m;
    assert ':' !in digits;
    assert m == digits + [':'] + (" " + msg);
    IndexOfAfter(digits, ':', " " + msg);
    assert m[..|digits|] == digits;
    assert m[|digits| + 2..] == msg;
    IntToStringRoundTrip(e.status.value);
  }

  // ---------------------------------------------------------------- status

  /** `validateStatus`: only 2xx is success. */
  function IsSuccessStatus(s: int): (ok: bool)
    ensures ok <==> s / 100 == 2
  {
    s >= 200 && s < 300
  }

  // ---------------------------------------------------------------- endpoints

  datatype HttpMethod = GET | POST | PUT

  datatype Endpoint =
    | UploadBoard
    | GetBoard(id: BoardId)
    | GetNext(id: BoardId)
    | GetSteps(id: BoardId, n: int)
    | Advance(id: BoardId, steps: int)
    | GetFinal(id: BoardId, maxAttempts: int)
    | UpdateGrid(id: BoardId)

  const Collection := "/api/Boards"
  const LowerCollection := "/api/boards"

  /** The HTTP verb each request function uses. */
  function MethodOf(e: Endpoint): (m: HttpMethod)
    ensures m == POST <==> e.UploadBoard? || e.Advance?
    ensures m == PUT <==> e.UpdateGrid?
    ensures m == GET <==> e.GetBoard? || e.GetNext? || e.GetSteps? || e.GetFinal?
  {
    match e
    case UploadBoard => POST
    case GetBoard(_) => GET
    case GetNext(_) => GET
    case GetSteps(_, _) => GET
    case Advance(_, _) => POST
    case GetFinal(_, _) => GET
    case UpdateGrid(_) => PUT
  }

  /** `/api/Boards/{id}/{tail}`. */
  function BoardPath(id: BoardId, tail: string): string {
    Collection + "/" + id + "/" + tail
  }

  /** A path that names board `id` right after its collection segment. */
  predicate NamesBoard(p: string, id: BoardId) {
    && |p| >= |Collection| + 1 + |id|
    && StartsWith(p, "/api/")
    && p[|Collection|] == '/'
    && p[|Collection| + 1..|Collection| + 1 + |id|] == id
  }

  lemma CollectionNames(collection: string, id: BoardId)
    requires collection == Collection || collection == LowerCollection
    ensures NamesBoard(collection + "/" + id, id) && |collection + "/" + id| == |Collection| + 1 + |id|
  {
    var p := collection + "/" + id;
    assert p[..5] == collection[..5];
    assert p[|Collection| + 1..] == id;
  }

  lemma BoardPathNames(id: BoardId, tail: string)
    ensures var p := BoardPath(id, tail);
      NamesBoard(p, id) && |p| > |Collection| + 1 + |id| && p[|Collection| + 1 + |id|] == '/'
  {
    var p := BoardPath(id, tail);
    CollectionNames(Collection, id);
    assert p == (Collection + "/" + id) + ("/" + tail);
    assert p[..|Collection| + 1 + |id|] == Collection + "/" + id;
  }

  /**
   * The path each request function requests. Every path but the upload's names
   * the board right after the collection segment, and the board and grid-update
   * paths end there.
   */
  function Path(e: Endpoint): (p: string)
    ensures e.UploadBoard? ==> p == Collection
    ensures !e.UploadBoard? ==> NamesBoard(p, e.id)
    ensures e.GetBoard? || e.UpdateGrid? ==> |p| == |Collection| + 1 + |e.id|
    ensures !e.UploadBoard? && !e.GetBoard? && !e.UpdateGrid? ==>
      |p| > |Collection| + 1 + |e.id| && p[|Collection| + 1 + |e.id|] == '/'
  {
    match e
    case UploadBoard => Collection
    case GetBoard(id) => CollectionNames(Collection, id); Collection + "/" + id
    case GetNext(id) => BoardPathNames(id, "next"); BoardPath(id, "next")
    case GetSteps(id, n) =>
      var tail := "steps/" + IntToString(n);
      BoardPathNames(id, tail); BoardPath(id, tail)
    case Advance(id, steps) =>
      var tail := "advance?steps=" + IntToString(steps);
      BoardPathNames(id, tail); BoardPath(id, tail)
    case GetFinal(id, m) =>
      var tail := "final?maxAttempts=" + IntToString(m);
      BoardPathNames(id, tail); BoardPath(id, tail)
    case UpdateGrid(id) => CollectionNames(LowerCollection, id); LowerCollection + "/" + id
  }

  /** `advance(id, steps = 1)`. */
  function AdvanceCall(id: BoardId, steps: Option<int>): (e: Endpoint)
    ensures e.Advance? && e.id == id
    ensures steps.None? ==> e.steps == DefaultAdvanceSteps
    ensures steps.Some? ==> e.steps == steps.value
  {
    Advance(id, steps.GetOr(DefaultAdvanceSteps))
  }

  /** `getFinal(id, maxAttempts = 10000)`. */
  function FinalCall(id: BoardId, maxAttempts: Option<int>): (e: Endpoint)
    ensures e.GetFinal? && e.id == id
    ensures maxAttempts.None? ==> e.maxAttempts == DefaultMaxAttempts
    ensures maxAttempts.Some? ==> e.maxAttempts == maxAttempts.value
  {
    GetFinal(id, maxAttempts.GetOr(DefaultMaxAttempts))
  }

  lemma DefaultRenderings()
    ensures IntToString(DefaultAdvanceSteps) == "1"
    ensures IntToString(DefaultMaxAttempts) == "10000"
  {
    assert Digit(0) == '0' && Digit(1) == '1';
    assert NatToString(1) == "1";
    assert NatToString(10) == "10";
    assert NatToString(100) == "100";
    assert NatToString(1000) == "1000";
    assert NatToString(10000) == "10000";
  }

  /** The defaults reach the paths: `/api/Boards/{id}/advance?steps=1` and `/api/Boards/{id}/final?maxAttempts=10000`. */
  lemma DefaultPaths(id: BoardId)
    ensures Path(AdvanceCall(id, None)) == BoardPath(id, "advance?steps=1")
    ensures Path(FinalCall(id, None)) == BoardPath(id, "final?maxAttempts=10000")
  {
    DefaultRenderings();
    assert "advance?steps=" + "1" == "advance?steps=1";
    assert "final?maxAttempts=" + "10000" == "final?maxAttempts=10000";
  }

  /** Only the grid update uses the lower-case collection segment; every other call uses `Boards`. */
  lemma PathSegment(e: Endpoint)
    ensures e.UpdateGrid? ==> StartsWith(Path(e), LowerCollection + "/")
    ensures !e.UpdateGrid? ==> StartsWith(Path(e), Collection)
    ensures !e.UpdateGrid? && !e.UploadBoard? ==> StartsWith(Path(e), Collection + "/")
  {
    match e
    case UploadBoard =>
    case UpdateGrid(id) => StartsWithConcat(LowerCollection + "/", id);
    case GetBoard(id) => CollectionPrefix(id, "");
    case GetNext(id) => CollectionPrefix(id, "/next");
    case GetSteps(id, n) => CollectionPrefix(id, "/steps/" + IntToString(n));
    case Advance(id, n) => CollectionPrefix(id, "/advance?steps=" + IntToString(n));
    case GetFinal(id, n) => CollectionPrefix(id, "/final?maxAttempts=" + IntToString(n));
  }

  lemma CollectionPrefix(id: BoardId, rest: string)
    ensures StartsWith(Collection + "/" + id + rest, Collection + "/")
    ensures StartsWith(Collection + "/" + id + rest, Collection)
  {
    var p := Collection + "/" + id + rest;
    assert p[..|Collection| + 1] == Collection + "/";
    assert p[..|Collection|] == Collection;
  }

  /** The integer after `word` at the start of `tail`, if `tail` is that word and a number. */
  function NumberAfter(tail: string, word: string): Option<int> {
    if StartsWith(tail, word) then ParseInt(tail[|word|..]) else None
  }

  /** Reads the part of a board path after `/api/Boards/{id}/`. */
  function ParseTail(m: HttpMethod, id: BoardId, tail: string): Option<Endpoint> {
    var advance := NumberAfter(tail, "advance?steps=");
    var steps := NumberAfter(tail, "steps/");
    var final := NumberAfter(tail, "final?maxAttempts=");
    if m == POST && advance.Some? then Some(Advance(id, advance.value))
    else if m == GET && tail == "next" then Some(GetNext(id))
    else if m == GET && steps.Some? then Some(GetSteps(id, steps.value))
    else if m == GET && final.Some? then Some(GetFinal(id, final.value))
    else None
  }

  /** Reads a request line back into the endpoint it addresses. */
  function ParseRoute(m: HttpMethod, path: string): Option<Endpoint> {
    if m == POST && path == Collection then Some(UploadBoard)
    else if m == PUT then
      if StartsWith(path, LowerCollection + "/") && '/' !in path[|LowerCollection + "/"|..]
      then Some(UpdateGrid(path[|LowerCollection + "/"|..]))
      else None
    else if StartsWith(path, Collection + "/") then
      var rest := path[|Collection + "/"|..];
      match IndexOf(rest, '/')
      case None => if m == GET then Some(GetBoard(rest)) else None
      case Some(k) => ParseTail(m, rest[..k], rest[k + 1..])
    else None
  }

  /** `/` never occurs in the identity, so it cannot be confused with a path separator. */
  predicate PlainId(e: Endpoint) {
    e.UploadBoard? || '/' !in e.id
  }

  lemma TailRoute(id: BoardId, tail: string)
    requires '/' !in id
    ensures var path := Collection + "/" + id + "/" + tail;
      StartsWith(path, Collection + "/") &&
      IndexOf(path[|Collection + "/"|..], '/') == Some(|id|) &&
      path[|Collection + "/"|..][..|id|] == id &&
      path[|Collection + "/"|..][|id| + 1..] == tail
  {
    var path := Collection + "/" + id + "/" + tail;
    assert path == (Collection + "/") + (id + "/" + tail);
    StartsWithConcat(Collection + "/", id + "/" + tail);
    var rest := id + "/" + tail;
    assert rest == id + ['/'] + tail;
    IndexOfAfter(id, '/', tail);
    assert rest[..|id|] == id;
    assert rest[|id| + 1..] == tail;
  }

  /** A path `/api/Boards/{id}/{tail}` splits back into its identity and its tail. */
  lemma BoardPathSplits(id: BoardId, tail: string)
    requires '/' !in id
    ensures var path := BoardPath(id, tail);
      path != Collection &&
      ParseRoute(GET, path) == ParseTail(GET, id, tail) &&
      ParseRoute(POST, path) == ParseTail(POST, id, tail)
  {
    var path := BoardPath(id, tail);
    TailRoute(id, tail);
    assert |path| > |Collection|;
  }

  lemma NumberAfterWord(word: string, n: int)
    ensures NumberAfter(word + IntToString(n), word) == Some(n)
  {
    StartsWithConcat(word, IntToString(n));
    IntToStringRoundTrip(n);
  }

  lemma StepsRoundTrip(id: BoardId, n: int)
    requires '/' !in id
    ensures ParseRoute(GET, Path(GetSteps(id, n))) == Some(GetSteps(id, n))
  {
    var tail := "steps/" + IntToString(n);
    BoardPathSplits(id, tail);
    NumberAfterWord("steps/", n);
    assert tail != "next" by { assert tail[0] == 's'; }
  }

  lemma AdvanceRoundTrip(id: BoardId, n: int)
    requires '/' !in id
    ensures ParseRoute(POST, Path(Advance(id, n))) == Some(Advance(id, n))
  {
    var tail := "advance?steps=" + IntToString(n);
    BoardPathSplits(id, tail);
    NumberAfterWord("advance?steps=", n);
  }

  lemma FinalRoundTrip(id: BoardId, n: int)
    requires '/' !in id
    ensures ParseRoute(GET, Path(GetFinal(id, n))) == Some(GetFinal(id, n))
  {
    var tail := "final?maxAttempts=" + IntToString(n);
    assert Path(GetFinal(id, n)) == BoardPath(id, tail);
    BoardPathSplits(id, tail);
    NumberAfterWord("final?maxAttempts=", n);
    assert tail[0] == 'f';
    assert tail != "next";
    assert !StartsWith(tail, "steps/") by { assert "steps/"[0] == 's'; }
    assert ParseTail(GET, id, tail) == Some(GetFinal(id, n));
  }

  lemma NextRoundTrip(id: BoardId)
    requires '/' !in id
    ensures ParseRoute(GET, Path(GetNext(id))) == Some(GetNext(id))
  {
    BoardPathSplits(id, "next");
  }

  /** Every endpoint's method and path determine it, arguments included: the path builder loses nothing. */
  lemma RouteRoundTrip(e: Endpoint)
    requires PlainId(e)
    ensures ParseRoute(MethodOf(e), Path(e)) == Some(e)
  {
    match e
    case UploadBoard =>
    case UpdateGrid(id) =>
      assert Path(e) == (LowerCollection + "/") + id;
      StartsWithConcat(LowerCollection + "/", id);
    case GetBoard(id) =>
      assert Path(e) == (Collection + "/") + id;
      StartsWithConcat(Collection + "/", id);
      assert Path(e) != Collection by { assert |Path(e)| > |Collection|; }
    case GetNext(id) => NextRoundTrip(id);
    case GetSteps(id, n) => StepsRoundTrip(id, n);
    case Advance(id, n) => AdvanceRoundTrip(id, n);
    case GetFinal(id, n) => FinalRoundTrip(id, n);
  }

  /**
   * What the caller of a request function sees when the request fails: every
   * call passes the thrown value through ToError, except `updateGrid`, which
   * lets it through unchanged.
   */
  function SurfacedFailure(e: Endpoint, thrown: Thrown): (t: Thrown)
    ensures e.UpdateGrid? ==> t == thrown
    ensures !e.UpdateGrid? ==> t.NativeError? && t.message == ToError(thrown).message
  {
    if e.UpdateGrid? then thrown else NativeError(ToError(thrown).message)
  }

  /** Normalising an already normalised failure changes nothing. */
  lemma SurfacedFailureIdempotent(e: Endpoint, thrown: Thrown)
    ensures SurfacedFailure(e, SurfacedFailure(e, thrown)) == SurfacedFailure(e, thrown)
  {
  }

  // ---------------------------------------------------------------- queries and invalidation

  /** `useBoard(id)`: the key `["board", id]`, enabled only for a truthy id. */
  function BoardQuery(id: Option<BoardId>): (k: Option<CacheKey>)
    ensures k.Some? <==> Truthy(id)
    ensures k.Some? ==> k.value == Current(id.value)
  {
    if Truthy(id) then Some(Current(id.value)) else None
  }

  /** `usePreviewNext(id)`: the key `["board", id, "next"]`, enabled only for a truthy id. */
  function PreviewQuery(id: Option<BoardId>): (k: Option<CacheKey>)
    ensures k.Some? <==> Truthy(id)
    ensures k.Some? ==> k.value == Next(id.value)
  {
    if Truthy(id) then Some(Next(id.value)) else None
  }

  /** Keys the grid-update and advance mutations for `id` invalidate: both board keys on success, none on failure. */
  function InvalidatedKeys(id: BoardId, succeeded: bool): (keys: set<CacheKey>)
    ensures forall k :: k in keys ==> k.id == id
    ensures !succeeded ==> keys == {}
  {
    if succeeded then {Current(id), Next(id)} else {}
  }

  /** A successful mutation for `id` leaves exactly the two read queries for `id` invalidated. */
  lemma InvalidationCoversQueries(id: BoardId, k: CacheKey)
    requires id != ""
    ensures k in InvalidatedKeys(id, true) <==>
      Some(k) == BoardQuery(Some(id)) || Some(k) == PreviewQuery(Some(id))
  {
  }

  /** The `onSuccess` handler shared by `useUpdateGridMutation` and `useAdvanceMutation`. */
  method MutationSettled(qc: QueryClient, id: BoardId, succeeded: bool)
    modifies qc
    ensures qc.data == old(qc.data)
    ensures qc.stale == old(qc.stale) + InvalidatedKeys(id, succeeded)
  {
    if succeeded {
      qc.InvalidateQueries(Current(id));
      qc.InvalidateQueries(Next(id));
    }
  }
}
