/**
  `DropboxStorage` (src/providers/dropboxStorage.ts): a cached OAuth token,
  RPC calls through the shared request helper, and uploads and downloads
  through the content endpoints. The network and the zod schemas are
  oracles held in a `Backend` value; `Date.now()` is read twice by
  `authenticate` (before the refresh and after its answer), so a `Clock`
  carries both readings.
 */
module DropboxStorage {
  import opened Wrappers
  import opened Json
  import opened StorageTypes
  import opened Http
  import MimeType

  const ApiBase: string := "https://api.dropboxapi.com/2"
  const TokenAddress: string := "https://api.dropboxapi.com/oauth2/token"
  const UploadAddress: string := "https://content.dropboxapi.com/2/files/upload"
  const DownloadAddress: string := "https://content.dropboxapi.com/2/files/download"
  const UploadFailed: string := "Failed to upload file to Dropbox"

  datatype Tag = FileTag | FolderTag

  /** An entry as the file schema accepts it. */
  datatype DropBoxFile = DropBoxFile(
    tag: Tag,
    name: string,
    id: string,
    path_lower: string,
    path_display: string,
    client_modified: string,
    size: Option<int>)

  /** A `list_folder` answer. */
  datatype FolderListing = FolderListing(entries: seq<DropBoxFile>, has_more: bool, cursor: string)

  /** A token; `expires_in` is seconds as received and an absolute instant in
      milliseconds once cached. */
  datatype DropBoxToken = DropBoxToken(access_token: string, expires_in: int, refresh_token: string)

  datatype Credentials = Credentials(clientId: string, clientSecret: string)

  /** The network and the three schemas. */
  datatype Backend = Backend(
    fetch: Fetch,
    fileSchema: Data -> Result<DropBoxFile, Failure>,
    listingSchema: Data -> Result<FolderListing, Failure>,
    tokenSchema: Data -> Result<DropBoxToken, Failure>)

  /** The two readings of `Date.now()` in `authenticate`. */
  datatype Clock = Clock(now: int, later: int)

  /** The cache after a step, what the step settled with, and the calls it sent. */
  datatype Outcome<T> = Outcome(token: Option<DropBoxToken>, result: Result<T, Failure>, sent: seq<FetchCall>)

  // ---------------------------------------------------------------------
  // Entries
  // ---------------------------------------------------------------------

  /** `parseFile`: the lower-cased path is the identifier, a missing size is 0,
      and the MIME type comes from the name even for folders. */
  function ParseFile(file: DropBoxFile): (f: IFile)
    ensures f.name == file.name && f.path == file.path_lower
    ensures f.size == file.size.GetOr(0)
    ensures f.isFolder <==> file.tag == FolderTag
    ensures f.mimeType.Some? && f.mimeType.value == MimeType.GetMimeType(file.name)
    ensures f.modifiedAt == FromText(file.client_modified)
  {
    IFile(file.name, file.path_lower, file.size.GetOr(0), Some(MimeType.GetMimeType(file.name)),
          file.tag == FolderTag, FromText(file.client_modified))
  }

  /** `data.entries.map(parseFile)`: one entry per listed item, in order. */
  function ListingFiles(listing: FolderListing): (files: seq<IFile>)
    ensures |files| == |listing.entries|
    ensures forall i :: 0 <= i < |files| ==> files[i] == ParseFile(listing.entries[i])
  {
    seq(|listing.entries|, i requires 0 <= i < |listing.entries| => ParseFile(listing.entries[i]))
  }

  // ---------------------------------------------------------------------
  // The token cache
  // ---------------------------------------------------------------------

  /** The query of the refresh request, in its declaration order. */
  function RefreshQuery(credentials: Credentials, refreshToken: string): Query {
    [("grant_type", Single(PString("refresh_token"))),
     ("refresh_token", Single(PString(refreshToken))),
     ("client_id", Single(PString(credentials.clientId))),
     ("client_secret", Single(PString(credentials.clientSecret)))]
  }

  /** The refresh: a GET to the token endpoint with no headers and no body,
      the grant and the credentials in the query. */
  function RefreshRequest(credentials: Credentials, refreshToken: string): (r: Request)
    ensures r.httpMethod == GET && r.address == TokenAddress && r.headers.None? && r.body.None?
    ensures r.query.Some? && |r.query.value| == 4
    ensures r.query.value[0] == ("grant_type", Single(PString("refresh_token")))
    ensures r.query.value[1] == ("refresh_token", Single(PString(refreshToken)))
  {
    Request(GET, None, None, Some(RefreshQuery(credentials, refreshToken)), TokenAddress)
  }

  /** `this.token && this.token.expires_in > Date.now()`. */
  predicate IsValid(token: Option<DropBoxToken>, now: int) {
    token.Some? && token.value.expires_in > now
  }

  /** `authenticate()`: a cached token that has not expired is returned without
      a request; otherwise one refresh request is sent, and its answer, with
      the lifetime turned into an absolute expiry, is cached and returned. */
  function Authentication(token: Option<DropBoxToken>, credentials: Credentials, refreshToken: string,
                        clock: Clock, backend: Backend): (a: Outcome<DropBoxToken>)
    ensures a.sent == [] <==> IsValid(token, clock.now)
    ensures IsValid(token, clock.now) ==> a.token == token && a.result == Ok(token.value)
    ensures !IsValid(token, clock.now) ==> a.sent == [FetchCallFor(RefreshRequest(credentials, refreshToken))]
    ensures a.result.Ok? ==> a.token == Some(a.result.value)
    ensures a.result.Err? ==> a.token == token
    ensures a.result.Err? ==>
      !IsValid(token, clock.now)
      && MakeRequest(RefreshRequest(credentials, refreshToken), backend.fetch, backend.tokenSchema) == Err(a.result.error)
    ensures !IsValid(token, clock.now) && a.result.Ok? ==>
      var answer := MakeRequest(RefreshRequest(credentials, refreshToken), backend.fetch, backend.tokenSchema);
      answer.Ok? && a.result.value.expires_in == clock.later + answer.value.expires_in * 1000
      && a.result.value.access_token == answer.value.access_token
  {
    if IsValid(token, clock.now) then Outcome(token, Ok(token.value), [])
    else
      var request := RefreshRequest(credentials, refreshToken);
      match MakeRequest(request, backend.fetch, backend.tokenSchema)
      case Err(e) => Outcome(token, Err(e), [FetchCallFor(request)])
      case Ok(answer) =>
        var renewed := answer.(expires_in := clock.later + answer.expires_in * 1000);
        Outcome(Some(renewed), Ok(renewed), [FetchCallFor(request)])
  }

  // ---------------------------------------------------------------------
  // RPC requests
  // ---------------------------------------------------------------------

  function RpcHeaders(accessToken: string): Headers {
    [("Authorization", "Bearer " + accessToken), ("Content-Type", "application/json")]
  }

  /** The request the private `makeRequest` builds, as written: the API root is
      put in front of `path`, and the query is serialised to a string, which
      the shared helper serialises a second time. */
  function RpcRequestAsWritten(path: string, query: Json, accessToken: string): (r: Request)
    ensures r.address == ApiBase + path
    ensures r.body == Some(JString(Stringify(query)))
  {
    Request(POST, Some(RpcHeaders(accessToken)), Some(JString(Stringify(query))), None, ApiBase + path)
  }

  /** The request as intended: the endpoint below the API root, and the query
      object as the JSON body. */
  function RpcRequest(endpoint: string, query: Json, accessToken: string): (r: Request)
    ensures r.address == ApiBase + endpoint
    ensures r.body == Some(query)
  {
    Request(POST, Some(RpcHeaders(accessToken)), Some(query), None, ApiBase + endpoint)
  }

  /** The private `makeRequest` as intended: authenticate, then one RPC call
      to the endpoint below the API root, validated by `schema`. */
  function RpcOutcome<T>(token: Option<DropBoxToken>, credentials: Credentials, refreshToken: string,
                  clock: Clock, backend: Backend,
                  endpoint: string, query: Json, schema: Data -> Result<T, Failure>): (o: Outcome<T>)
    ensures var a := Authentication(token, credentials, refreshToken, clock, backend);
      && o.token == a.token
      && (a.result.Err? ==> o.result == Err(a.result.error) && o.sent == a.sent)
      && (a.result.Ok? ==>
            var request := RpcRequest(endpoint, query, a.result.value.access_token);
            o.sent == a.sent + [FetchCallFor(request)]
            && o.result == MakeRequest(request, backend.fetch, schema))
  {
    var a := Authentication(token, credentials, refreshToken, clock, backend);
    match a.result
    case Err(e) => Outcome(a.token, Err(e), a.sent)
    case Ok(t) =>
      var request := RpcRequest(endpoint, query, t.access_token);
      Outcome(a.token, MakeRequest(request, backend.fetch, schema), a.sent + [FetchCallFor(request)])
  }

  /** The private `makeRequest` as written, called with the full URL the
      public methods pass as `path`. */
  function RpcOutcomeAsWritten<T>(token: Option<DropBoxToken>, credentials: Credentials, refreshToken: string,
                  clock: Clock, backend: Backend,
                  path: string, query: Json, schema: Data -> Result<T, Failure>): (o: Outcome<T>)
    ensures var a := Authentication(token, credentials, refreshToken, clock, backend);
      && o.token == a.token
      && (a.result.Err? ==> o.result == Err(a.result.error) && o.sent == a.sent)
      && (a.result.Ok? ==>
            var request := RpcRequestAsWritten(path, query, a.result.value.access_token);
            o.sent == a.sent + [FetchCallFor(request)]
            && o.result == MakeRequest(request, backend.fetch, schema))
  {
    var a := Authentication(token, credentials, refreshToken, clock, backend);
    match a.result
    case Err(e) => Outcome(a.token, Err(e), a.sent)
    case Ok(t) =>
      var request := RpcRequestAsWritten(path, query, t.access_token);
      Outcome(a.token, MakeRequest(request, backend.fetch, schema), a.sent + [FetchCallFor(request)])
  }

  function PathQuery(path: string): Json {
    JObject([("path", JString(path))])
  }

  function MoveQuery(fromPath: string, toPath: string): Json {
    JObject([("from_path", JString(fromPath)), ("to_path", JString(toPath))])
  }

  function ListQuery(folderId: string): Json {
    JObject([
      ("path", JString(folderId)),
      ("include_media_info", JBool(true)),
      ("include_deleted", JBool(false)),
      ("include_has_explicit_shared_members", JBool(false)),
      ("include_mounted_folders", JBool(true)),
      ("include_non_downloadable_files", JBool(true))])
  }

  // ---------------------------------------------------------------------
  // Content endpoints
  // ---------------------------------------------------------------------

  /** The upload: a POST of the raw bytes to the content endpoint, with the
      token, and the target path in overwrite mode as the API argument. */
  function UploadCall(path: string, data: seq<bv8>, accessToken: string): (c: FetchCall)
    ensures c.httpMethod == POST && c.address == UploadAddress && c.search == []
    ensures c.body == Some(BinaryBody(data))
    ensures c.headers.Some? && |c.headers.value| == 3
    ensures c.headers.value[0] == ("Authorization", "Bearer " + accessToken)
    ensures c.headers.value[2] == ("Dropbox-API-Arg", Stringify(JObject([("path", JString(path)), ("mode", JString("overwrite"))])))
  {
    FetchCall(POST, UploadAddress, [],
      Some([("Authorization", "Bearer " + accessToken),
            ("Content-Type", "application/octet-stream"),
            ("Dropbox-API-Arg", Stringify(JObject([("path", JString(path)), ("mode", JString("overwrite"))])))]),
      Some(BinaryBody(data)))
  }

  /** What `putFile` makes of the upload's answer: the status is never looked
      at; a body that is not JSON, or not an entry, becomes the one upload
      error; a failed fetch is passed on as it is. */
  function UploadResult(answer: Result<Response, Failure>, backend: Backend): (r: Result<IFile, Failure>)
    ensures answer.Err? ==> r == Err(answer.error)
    ensures answer.Ok? && r.Err? ==> r.error == Thrown(UploadFailed)
    ensures r.Ok? <==> answer.Ok? && answer.value.json.Some?
                        && backend.fileSchema(JsonData(answer.value.json.value)).Ok?
    ensures r.Ok? ==> r.value == ParseFile(backend.fileSchema(JsonData(answer.value.json.value)).value)
  {
    match answer
    case Err(e) => Err(e)
    case Ok(response) =>
      if response.json.None? then Err(Thrown(UploadFailed))
      else match backend.fileSchema(JsonData(response.json.value))
        case Err(_) => Err(Thrown(UploadFailed))
        case Ok(file) => Ok(ParseFile(file))
  }

  /** The download: a POST with no body to the content endpoint, with the
      token and the file's path as the API argument. */
  function DownloadCall(fileId: string, accessToken: string): (c: FetchCall)
    ensures c.httpMethod == POST && c.address == DownloadAddress && c.search == [] && c.body.None?
    ensures c.headers.Some? && |c.headers.value| == 3
    ensures c.headers.value[0] == ("authorization", "Bearer " + accessToken)
    ensures c.headers.value[1] == ("Dropbox-API-Arg", Stringify(JObject([("path", JString(fileId))])))
  {
    FetchCall(POST, DownloadAddress, [],
      Some([("authorization", "Bearer " + accessToken),
            ("Dropbox-API-Arg", Stringify(JObject([("path", JString(fileId))]))),
            ("Content-Type", "application/octet-stream")]),
      None)
  }

  /** What `readFile` settles with: a non-2xx answer rejects with the response
      itself, anything else resolves with its body. */
  function DownloadResult(answer: Result<Response, Failure>): (r: Result<seq<bv8>, Failure>)
    ensures r.Ok? <==> answer.Ok? && IsOk(answer.value)
    ensures r.Ok? ==> r.value == answer.value.body
    ensures answer.Ok? && !IsOk(answer.value) ==> r == Err(ResponseRejected(answer.value.status))
  {
    match answer
    case Err(e) => Err(e)
    case Ok(response) => if IsOk(response) then Ok(response.body) else Err(ResponseRejected(response.status))
  }

  // ---------------------------------------------------------------------
  // The provider
  // ---------------------------------------------------------------------

  class DropboxStorage {
    const credentials: Credentials
    const refreshToken: string
    var token: Option<DropBoxToken>
    /** Every call handed to `fetch` so far. */
    ghost var sent: seq<FetchCall>

    constructor(options: OAuthOptions)
      ensures credentials == Credentials(options.clientId, options.clientSecret)
      ensures refreshToken == options.refreshToken
      ensures token == None && sent == []
    {
      credentials := Credentials(options.clientId, options.clientSecret);
      refreshToken := options.refreshToken;
      token := None;
      sent := [];
    }

    method Authenticate(clock: Clock, backend: Backend) returns (r: Result<DropBoxToken, Failure>)
      modifies this
      ensures var a := Authentication(old(token), credentials, refreshToken, clock, backend);
        token == a.token && r == a.result && sent == old(sent) + a.sent
    {
      if token.Some? && token.value.expires_in > clock.now {
        return Ok(token.value);
      }
      var request := RefreshRequest(credentials, refreshToken);
      sent := sent + [FetchCallFor(request)];
      var answer := MakeRequest(request, backend.fetch, backend.tokenSchema);
      if answer.Err? {
        return Err(answer.error);
      }
      var renewed := answer.value.(expires_in := clock.later + answer.value.expires_in * 1000);
      token := Some(renewed);
      r := Ok(renewed);
    }

    /** The private `makeRequest`, as intended (`RpcOutcome`); the public
        methods below pass the endpoint below the API root. */
    method Rpc<T>(endpoint: string, query: Json, schema: Data -> Result<T, Failure>,
                  clock: Clock, backend: Backend) returns (r: Result<T, Failure>)
      modifies this
      ensures var o := RpcOutcome(old(token), credentials, refreshToken, clock, backend, endpoint, query, schema);
        token == o.token && r == o.result && sent == old(sent) + o.sent
    {
      var auth := Authenticate(clock, backend);
      if auth.Err? {
        return Err(auth.error);
      }
      var request := RpcRequest(endpoint, query, auth.value.access_token);
      sent := sent + [FetchCallFor(request)];
      r := MakeRequest(request, backend.fetch, schema);
    }

    method CreateFolder(path: string, clock: Clock, backend: Backend) returns (r: Result<IFile, Failure>)
      modifies this
      ensures var o := RpcOutcome(old(token), credentials, refreshToken, clock, backend,
                                          "/files/create_folder_v2", PathQuery(path), backend.fileSchema);
        token == o.token && sent == old(sent) + o.sent && r == MapOk(o.result, ParseFile)
    {
      var data := Rpc("/files/create_folder_v2", PathQuery(path), backend.fileSchema, clock, backend);
      r := MapOk(data, ParseFile);
    }

    method DeleteFileOrFolder(fileId: string, clock: Clock, backend: Backend) returns (r: Result<bool, Failure>)
      modifies this
      ensures var o := RpcOutcome(old(token), credentials, refreshToken, clock, backend,
                                          "/files/delete_v2", PathQuery(fileId), backend.fileSchema);
        token == o.token && sent == old(sent) + o.sent
        && r == if o.result.Ok? then Ok(true) else Err(o.result.error)
    {
      var data := Rpc("/files/delete_v2", PathQuery(fileId), backend.fileSchema, clock, backend);
      if data.Err? {
        return Err(data.error);
      }
      r := Ok(true);
    }

    method GetFileOrFolder(fileId: string, clock: Clock, backend: Backend) returns (r: Result<IFile, Failure>)
      modifies this
      ensures var o := RpcOutcome(old(token), credentials, refreshToken, clock, backend,
                                          "/files/get_metadata", PathQuery(fileId), backend.fileSchema);
        token == o.token && sent == old(sent) + o.sent && r == MapOk(o.result, ParseFile)
    {
      var data := Rpc("/files/get_metadata", PathQuery(fileId), backend.fileSchema, clock, backend);
      r := MapOk(data, ParseFile);
    }

    method MoveFileOrFolder(fileId: string, newPath: string, clock: Clock, backend: Backend)
      returns (r: Result<IFile, Failure>)
      modifies this
      ensures var o := RpcOutcome(old(token), credentials, refreshToken, clock, backend,
                                          "/files/move_v2", MoveQuery(fileId, newPath), backend.fileSchema);
        token == o.token && sent == old(sent) + o.sent && r == MapOk(o.result, ParseFile)
    {
      var data := Rpc("/files/move_v2", MoveQuery(fileId, newPath), backend.fileSchema, clock, backend);
      r := MapOk(data, ParseFile);
    }

    /** Renaming is a move to `newName` taken as the whole new path. */
    method RenameFileOrFolder(fileId: string, newName: string, clock: Clock, backend: Backend)
      returns (r: Result<IFile, Failure>)
      modifies this
      ensures var o := RpcOutcome(old(token), credentials, refreshToken, clock, backend,
                                          "/files/move_v2", MoveQuery(fileId, newName), backend.fileSchema);
        token == o.token && sent == old(sent) + o.sent && r == MapOk(o.result, ParseFile)
    {
      r := MoveFileOrFolder(fileId, newName, clock, backend);
    }

    /** One `list_folder` page; `has_more` and `cursor` are not followed. */
    method ReadFolder(folderId: string, clock: Clock, backend: Backend) returns (r: Result<seq<IFile>, Failure>)
      modifies this
      ensures var o := RpcOutcome(old(token), credentials, refreshToken, clock, backend,
                                          "/files/list_folder", ListQuery(folderId), backend.listingSchema);
        token == o.token && sent == old(sent) + o.sent && r == MapOk(o.result, ListingFiles)
    {
      var data := Rpc("/files/list_folder", ListQuery(folderId), backend.listingSchema, clock, backend);
      r := MapOk(data, ListingFiles);
    }

    method PutFile(path: string, data: seq<bv8>, clock: Clock, backend: Backend) returns (r: Result<IFile, Failure>)
      modifies this
      ensures var a := Authentication(old(token), credentials, refreshToken, clock, backend);
        && token == a.token
        && (a.result.Err? ==> r == Err(a.result.error) && sent == old(sent) + a.sent)
        && (a.result.Ok? ==>
              var call := UploadCall(path, data, a.result.value.access_token);
              sent == old(sent) + a.sent + [call] && r == UploadResult(backend.fetch(call), backend))
    {
      var auth := Authenticate(clock, backend);
      if auth.Err? {
        return Err(auth.error);
      }
      var call := UploadCall(path, data, auth.value.access_token);
      sent := sent + [call];
      r := UploadResult(backend.fetch(call), backend);
    }

    method ReadFile(fileId: string, clock: Clock, backend: Backend) returns (r: Result<seq<bv8>, Failure>)
      modifies this
      ensures var a := Authentication(old(token), credentials, refreshToken, clock, backend);
        && token == a.token
        && (a.result.Err? ==> r == Err(a.result.error) && sent == old(sent) + a.sent)
        && (a.result.Ok? ==>
              var call := DownloadCall(fileId, a.result.value.access_token);
              sent == old(sent) + a.sent + [call] && r == DownloadResult(backend.fetch(call)))
    {
      var auth := Authenticate(clock, backend);
      if auth.Err? {
        return Err(auth.error);
      }
      var call := DownloadCall(fileId, auth.value.access_token);
      sent := sent + [call];
      r := DownloadResult(backend.fetch(call));
    }
  }

  // ---------------------------------------------------------------------
  // Properties
  // ---------------------------------------------------------------------

  /** The refresh request is a GET to the token endpoint carrying the four
      form fields in order, with the instance's own refresh token. */
  lemma RefreshCallShape(credentials: Credentials, refreshToken: string)
    ensures FetchCallFor(RefreshRequest(credentials, refreshToken))
         == FetchCall(GET, TokenAddress,
                      [("grant_type", "refresh_token"),
                       ("refresh_token", refreshToken),
                       ("client_id", credentials.clientId),
                       ("client_secret", credentials.clientSecret)],
                      None, None)
  {
    var q := RefreshQuery(credentials, refreshToken);
    ExpandQueryCons(q[0].0, q[0].1, q[1..]);
    ExpandQueryCons(q[1].0, q[1].1, q[2..]);
    ExpandQueryCons(q[2].0, q[2].1, q[3..]);
    ExpandQueryCons(q[3].0, q[3].1, []);
    assert q == [q[0]] + q[1..];
    assert q[1..] == [q[1]] + q[2..];
    assert q[2..] == [q[2]] + q[3..];
    assert q[3..] == [q[3]] + [];
  }

  /** After a successful refresh, any call made before the stamped expiry is
      served from the cache with no request, and returns the cached token. */
  lemma {:induction false} RefreshedTokenIsReused(token: Option<DropBoxToken>, credentials: Credentials,
                                                refreshToken: string, first: Clock, second: Clock, backend: Backend)
    requires !IsValid(token, first.now)
    requires Authentication(token, credentials, refreshToken, first, backend).result.Ok?
    requires second.now < Authentication(token, credentials, refreshToken, first, backend).result.value.expires_in
    ensures var a := Authentication(token, credentials, refreshToken, first, backend);
      var b := Authentication(a.token, credentials, refreshToken, second, backend);
      b.sent == [] && b.result == a.result && b.token == a.token
  {
  }

  /** A new instance has no token, so its first call always refreshes. */
  lemma FirstCallRefreshes(credentials: Credentials, refreshToken: string, clock: Clock, backend: Backend)
    ensures Authentication(None, credentials, refreshToken, clock, backend).sent
         == [FetchCallFor(RefreshRequest(credentials, refreshToken))]
  {
  }

  /** Finding: with the full URLs the callers pass, the address the helper
      builds repeats the API root, so no call reaches the intended endpoint. */
  lemma AsWrittenAddressRepeatsBase(endpoint: string, query: Json, accessToken: string)
    ensures FetchCallFor(RpcRequestAsWritten(ApiBase + endpoint, query, accessToken)).address
         == ApiBase + ApiBase + endpoint
    ensures FetchCallFor(RpcRequestAsWritten(ApiBase + endpoint, query, accessToken)).address
         != FetchCallFor(RpcRequest(endpoint, query, accessToken)).address
  {
    assert |ApiBase + ApiBase + endpoint| != |ApiBase + endpoint|;
  }

  /** Finding: the body sent as written is a JSON string literal holding the
      query's text, not the query object. */
  lemma {:induction false} AsWrittenBodyIsStringLiteral(path: string, members: seq<(string, Json)>, accessToken: string)
    ensures var body := FetchCallFor(RpcRequestAsWritten(path, JObject(members), accessToken)).body;
      body == Some(TextBody(Quote(Stringify(JObject(members))))) && body.value.text[0] == '"'
  {
    StringifyShape(JObject(members));
  }

  /** Corrected: the body is the query object itself, so it starts with `{`. */
  lemma {:induction false} RpcBodyIsQueryObject(endpoint: string, members: seq<(string, Json)>, accessToken: string)
    ensures var body := FetchCallFor(RpcRequest(endpoint, JObject(members), accessToken)).body;
      body == Some(TextBody(Stringify(JObject(members)))) && body.value.text[0] == '{'
    ensures FetchCallFor(RpcRequest(endpoint, JObject(members), accessToken)).address == ApiBase + endpoint
  {
    StringifyShape(JObject(members));
  }

  /** Finding, at the level of a whole RPC: as written, each public method's
      call goes through the same authentication and leaves the same cache as
      the intended one, but its RPC is sent to the doubled address with the
      query as a string literal, so it never reaches the endpoint. */
  lemma {:induction false} AsWrittenRpcMissesEndpoint<T>(token: Option<DropBoxToken>, credentials: Credentials,
                                                        refreshToken: string, clock: Clock, backend: Backend,
                                                        endpoint: string, members: seq<(string, Json)>,
                                                        schema: Data -> Result<T, Failure>)
    ensures var w := RpcOutcomeAsWritten(token, credentials, refreshToken, clock, backend,
                                         ApiBase + endpoint, JObject(members), schema);
      var c := RpcOutcome(token, credentials, refreshToken, clock, backend, endpoint, JObject(members), schema);
      && w.token == c.token
      && |w.sent| == |c.sent|
      && (Authentication(token, credentials, refreshToken, clock, backend).result.Ok? ==>
            && w.sent[..|w.sent| - 1] == c.sent[..|c.sent| - 1]
            && w.sent[|w.sent| - 1].address == ApiBase + ApiBase + endpoint
            && c.sent[|c.sent| - 1].address == ApiBase + endpoint
            && w.sent[|w.sent| - 1].body.value.text[0] == '"'
            && c.sent[|c.sent| - 1].body.value.text[0] == '{')
  {
    var a := Authentication(token, credentials, refreshToken, clock, backend);
    if a.result.Ok? {
      var t := a.result.value.access_token;
      AsWrittenAddressRepeatsBase(endpoint, JObject(members), t);
      AsWrittenBodyIsStringLiteral(ApiBase + endpoint, members, t);
      RpcBodyIsQueryObject(endpoint, members, t);
      var w := RpcOutcomeAsWritten(token, credentials, refreshToken, clock, backend,
                                   ApiBase + endpoint, JObject(members), schema);
      var c := RpcOutcome(token, credentials, refreshToken, clock, backend, endpoint, JObject(members), schema);
      assert w.sent[..|w.sent| - 1] == a.sent;
      assert c.sent[..|c.sent| - 1] == a.sent;
    }
  }

  /** The entry's MIME type is the one the lookup as written yields, except
      for the inherited names, where the program would store that member. */
  lemma ParseFileMimeAsWritten(file: DropBoxFile)
    ensures MimeType.Extension(file.name) !in MimeType.InheritedNames ==>
      MimeType.GetMimeTypeAsWritten(file.name) == MimeType.MimeString(ParseFile(file).mimeType.value)
    ensures MimeType.Extension(file.name) in MimeType.InheritedNames ==>
      MimeType.GetMimeTypeAsWritten(file.name).InheritedMember?
  {
  }

  /** A listing's extra pages are never fetched: `has_more` and `cursor` change nothing. */
  lemma ListingIgnoresCursor(listing: FolderListing, hasMore: bool, cursor: string)
    ensures ListingFiles(listing.(has_more := hasMore, cursor := cursor)) == ListingFiles(listing)
  {
  }

  /** Folder entries get a MIME type from their name too: a dot-free folder
      name is looked up whole. */
  lemma FolderEntryHasNameMime(file: DropBoxFile)
    requires file.tag == FolderTag && file.name == "Photos"
    ensures ParseFile(file).isFolder
    ensures ParseFile(file).mimeType == Some(MimeType.DefaultMime)
  {
    MimeType.DotFreeNameIsLookedUpWhole("Photos");
  }

  /** The upload never looks at the status: two answers with the same body settle alike. */
  lemma UploadIgnoresStatus(response: Response, status: int, backend: Backend)
    ensures UploadResult(Ok(response.(status := status)), backend) == UploadResult(Ok(response), backend)
  {
  }
}
