/**
  `GDriveStorage` (src/providers/gDriveStorage.ts): the Drive client is a
  set of oracles, one per API method, from the request the provider builds
  to the answer the callback or promise receives. What the provider adds is
  the request arguments, the validation and mapping of file records, and
  the recursive collection of listing pages.
 */
module GDriveStorage {
  import opened Wrappers
  import opened Js
  import opened StorageTypes
  import MimeType

  /** A property of a Drive record: absent, `null`, or a string. */
  datatype Field = Undefined | Null | Value(s: string)

  /** `drive_v3.Schema$File`, reduced to the properties the provider reads. */
  datatype DriveFile = DriveFile(
    id: Field,
    name: Field,
    size: Field,
    mimeType: Field,
    modifiedTime: Field,
    webContentLink: Field)

  /** The `fields` mask of every metadata request. */
  const EntryFields: string :=
    "id, name, size, parents, modifiedTime, mimeType, contentHints/thumbnail, videoMediaMetadata, thumbnailLink, explicitlyTrashed"
  /** The mask `getSignedUrl` sends. */
  /** `id, name, size, parents, modifiedTime, mimeType`, written in pieces. */
  const SignedUrlFields: string := "id, name" + ", size, " + "parents," + " modifiedTime" + ", mimeType"
  const ListFields: string := "nextPageToken, files(" + EntryFields + ")"

  /** `value || fallback` for a string property. */
  function OrElse(f: Field, fallback: string): (r: string)
    ensures f.Value? && f.s != "" ==> r == f.s
    ensures !(f.Value? && f.s != "") ==> r == fallback
  {
    if f.Value? && f.s != "" then f.s else fallback
  }

  /** `Number(value)` for the forms Drive's size strings take: a decimal digit
      string is its value, an empty string and `null` are 0, `undefined` is NaN.
      Every other string is NaN here; surrounding white space, a sign, `0x`, a
      fraction or an exponent, which `Number` accepts, are not modelled. */
  function NumberOf(f: Field): (n: Num)
    ensures f.Value? && f.s != "" && DigitPrefix(f.s, 10) == f.s ==> n == Int(DigitsValue(f.s, 10))
    ensures f.Null? || f == Value("") ==> n == Int(0)
    ensures f.Undefined? ==> n == NaN
  {
    match f
    case Undefined => NaN
    case Null => Int(0)
    case Value(s) =>
      if s == "" then Int(0)
      else if DigitPrefix(s, 10) == s then Int(DigitsValue(s, 10))
      else NaN
  }

  /** `Number(size) || 0`: NaN and 0 both give 0. */
  function SizeOf(f: Field): (size: int)
    ensures NumberOf(f).Int? ==> size == NumberOf(f).value
    ensures NumberOf(f).NaN? ==> size == 0
  {
    match NumberOf(f)
    case NaN => 0
    case Int(n) => n
  }

  /** `parseFile`: three checks in order, then the mapping. `null` passes the
      `=== undefined` checks and is then replaced by the `||` fallbacks. */
  function ParseFile(file: DriveFile): (r: Result<IFile, Failure>)
    ensures r.Err? <==> file.id.Undefined? || file.name.Undefined?
                        || (file.size.Undefined? && file.mimeType != Value(MimeType.FolderMime))
    ensures file.id.Undefined? ==> r == Err(Thrown("File id is undefined"))
    ensures !file.id.Undefined? && file.name.Undefined? ==> r == Err(Thrown("File name is undefined"))
    ensures !file.id.Undefined? && !file.name.Undefined? && r.Err? ==> r == Err(Thrown("File size is undefined"))
    ensures r.Ok? ==> r.value.name == OrElse(file.name, "") && r.value.path == OrElse(file.id, "")
    ensures r.Ok? ==> (r.value.isFolder <==> file.mimeType == Value(MimeType.FolderMime))
    ensures r.Ok? ==> r.value.mimeType == if file.mimeType.Value? && file.mimeType.s != "" then Some(file.mimeType.s) else None
    ensures r.Ok? ==> r.value.size == SizeOf(file.size)
    ensures r.Ok? ==> r.value.modifiedAt == if file.modifiedTime.Value? && file.modifiedTime.s != "" then FromText(file.modifiedTime.s) else Epoch
  {
    if file.id.Undefined? then Err(Thrown("File id is undefined"))
    else if file.name.Undefined? then Err(Thrown("File name is undefined"))
    else if file.size.Undefined? && file.mimeType != Value(MimeType.FolderMime) then Err(Thrown("File size is undefined"))
    else Ok(IFile(
      OrElse(file.name, ""),
      OrElse(file.id, ""),
      SizeOf(file.size),
      if file.mimeType.Value? && file.mimeType.s != "" then Some(file.mimeType.s) else None,
      file.mimeType == Value(MimeType.FolderMime),
      if file.modifiedTime.Value? && file.modifiedTime.s != "" then FromText(file.modifiedTime.s) else Epoch))
  }

  /** `files?.map(parseFile) || []`: the first record that fails fails the page. */
  function ParseAll(files: seq<DriveFile>): (r: Result<seq<IFile>, Failure>)
    ensures r.Ok? ==> |r.value| == |files|
    ensures r.Ok? ==> forall i :: 0 <= i < |files| ==> ParseFile(files[i]) == Ok(r.value[i])
    ensures r.Err? ==> exists i :: 0 <= i < |files| && ParseFile(files[i]) == Err(r.error)
                                 && forall j :: 0 <= j < i ==> ParseFile(files[j]).Ok?
  {
    if files == [] then Ok([])
    else match ParseFile(files[0])
      case Err(e) => Err(e)
      case Ok(first) =>
        match ParseAll(files[1..])
        case Err(e) =>
          ghost var i :| 0 <= i < |files[1..]| && ParseFile(files[1..][i]) == Err(e)
                       && forall j :: 0 <= j < i ==> ParseFile(files[1..][j]).Ok?;
          FirstFailureInTail(files, i);
          Err(e)
        case Ok(rest) => Ok([first] + rest)
  }

  /** The first failure in the tail, after a first record that parses, is the
      first failure of the whole page, one place further on. */
  lemma FirstFailureInTail(files: seq<DriveFile>, i: nat)
    requires |files| > 0 && ParseFile(files[0]).Ok? && i < |files| - 1
    requires forall j :: 0 <= j < i ==> ParseFile(files[1..][j]).Ok?
    ensures files[i + 1] == files[1..][i]
    ensures forall j :: 0 <= j < i + 1 ==> ParseFile(files[j]).Ok?
  {
    forall j | 0 < j < i + 1 ensures ParseFile(files[j]).Ok? {
      assert files[j] == files[1..][j - 1];
    }
  }

  // ---------------------------------------------------------------------
  // Requests
  // ---------------------------------------------------------------------

  /** `files.create`: the resource, an optional media upload, and the mask. */
  datatype CreateRequest = CreateRequest(
    name: string,
    mimeType: Option<string>,
    parents: Option<seq<string>>,
    media: Option<seq<bv8>>,
    mediaType: Option<string>,
    fields: string)

  datatype GetRequest = GetRequest(fileId: string, supportsAllDrives: bool, fields: string)

  /** `files.update`: parent changes, a new name, and whether shared drives are allowed. */
  datatype UpdateRequest = UpdateRequest(
    fileId: string,
    supportsAllDrives: bool,
    addParents: Option<string>,
    removeParents: Option<string>,
    newName: Option<string>,
    fields: string)

  datatype DeleteRequest = DeleteRequest(fileId: string, supportsAllDrives: bool)

  datatype ListRequest = ListRequest(
    q: string,
    fields: string,
    supportsAllDrives: bool,
    pageToken: Option<string>,
    spaces: string,
    orderBy: string,
    pageSize: nat)

  /** `files.get` with `alt: 'media'`, optionally with a Range header. */
  datatype MediaRequest = MediaRequest(fileId: string, supportsAllDrives: bool, range: Option<string>)

  /** One listing page. */
  datatype FileList = FileList(files: Option<seq<DriveFile>>, nextPageToken: Field)

  /** A media answer: the bytes and the response headers. */
  datatype MediaAnswer = MediaAnswer(data: seq<bv8>, headers: map<string, string>)

  /** The Drive client: what the callback or promise of each method receives
      (`None` when the answer carries no data). */
  datatype DriveApi = DriveApi(
    create: CreateRequest -> Result<DriveFile, Failure>,
    get: GetRequest -> Result<Option<DriveFile>, Failure>,
    update: UpdateRequest -> Result<Option<DriveFile>, Failure>,
    delete: DeleteRequest -> Result<(), Failure>,
    list: ListRequest -> Result<FileList, Failure>,
    media: MediaRequest -> Result<MediaAnswer, Failure>)

  /** The failure of reading a property of a missing answer. */
  const NoData: string := "Cannot read properties of undefined"

  function CreateFolder(path: string, api: DriveApi): (r: Result<IFile, Failure>)
    ensures var request := CreateRequest(path, Some(MimeType.FolderMime), None, None, None, EntryFields);
      && (api.create(request).Err? ==> r == Err(api.create(request).error))
      && (api.create(request).Ok? ==> r == ParseFile(api.create(request).value))
  {
    match api.create(CreateRequest(path, Some(MimeType.FolderMime), None, None, None, EntryFields))
    case Err(e) => Err(e)
    case Ok(file) => ParseFile(file)
  }

  /** An upload always goes to the root folder, as an untyped byte stream. */
  function PutFile(path: string, data: seq<bv8>, api: DriveApi): (r: Result<IFile, Failure>)
    ensures var request := CreateRequest(path, None, Some(["root"]), Some(data), Some(MimeType.DefaultMime), EntryFields);
      && (api.create(request).Err? ==> r == Err(api.create(request).error))
      && (api.create(request).Ok? ==> r == ParseFile(api.create(request).value))
  {
    match api.create(CreateRequest(path, None, Some(["root"]), Some(data), Some(MimeType.DefaultMime), EntryFields))
    case Err(e) => Err(e)
    case Ok(file) => ParseFile(file)
  }

  function DeleteFileOrFolder(fileId: string, api: DriveApi): (r: Result<bool, Failure>)
    ensures r.Ok? <==> api.delete(DeleteRequest(fileId, true)).Ok?
    ensures r.Ok? ==> r.value
  {
    match api.delete(DeleteRequest(fileId, true))
    case Err(e) => Err(e)
    case Ok(_) => Ok(true)
  }

  /** An answer without data is "File not found". */
  function GetFileOrFolder(fileId: string, api: DriveApi): (r: Result<IFile, Failure>)
    ensures var answer := api.get(GetRequest(fileId, true, EntryFields));
      && (answer.Err? ==> r == Err(answer.error))
      && (answer == Ok(None) ==> r == Err(Thrown("File not found")))
      && (answer.Ok? && answer.value.Some? ==> r == ParseFile(answer.value.value))
  {
    match api.get(GetRequest(fileId, true, EntryFields))
    case Err(e) => Err(e)
    case Ok(None) => Err(Thrown("File not found"))
    case Ok(Some(file)) => ParseFile(file)
  }

  /** The update a move sends: add `newPath` as a parent and remove `root`. */
  function MoveRequest(fileId: string, newPath: string): (u: UpdateRequest)
    ensures u.addParents == Some(newPath) && u.removeParents == Some("root")
    ensures u.newName == None && u.supportsAllDrives && u.fileId == fileId
  {
    UpdateRequest(fileId, true, Some(newPath), Some("root"), None, EntryFields)
  }

  function MoveFileOrFolder(fileId: string, newPath: string, api: DriveApi): (r: Result<IFile, Failure>)
    ensures var answer := api.update(MoveRequest(fileId, newPath));
      && (answer.Err? ==> r == Err(answer.error))
      && (answer == Ok(None) ==> r == Err(Thrown("File not found")))
      && (answer.Ok? && answer.value.Some? ==> r == ParseFile(answer.value.value))
  {
    match api.update(MoveRequest(fileId, newPath))
    case Err(e) => Err(e)
    case Ok(None) => Err(Thrown("File not found"))
    case Ok(Some(file)) => ParseFile(file)
  }

  /** The update a rename sends: only the new name, without `supportsAllDrives`. */
  function RenameRequest(fileId: string, newName: string): (u: UpdateRequest)
    ensures u.newName == Some(newName) && u.addParents == None && u.removeParents == None
    ensures !u.supportsAllDrives && u.fileId == fileId
  {
    UpdateRequest(fileId, false, None, None, Some(newName), EntryFields)
  }

  function RenameFileOrFolder(fileId: string, newName: string, api: DriveApi): (r: Result<IFile, Failure>)
    ensures var answer := api.update(RenameRequest(fileId, newName));
      && (answer.Err? ==> r == Err(answer.error))
      && (answer == Ok(None) ==> r == Err(Thrown(NoData)))
      && (answer.Ok? && answer.value.Some? ==> r == ParseFile(answer.value.value))
  {
    match api.update(RenameRequest(fileId, newName))
    case Err(e) => Err(e)
    case Ok(None) => Err(Thrown(NoData))
    case Ok(Some(file)) => ParseFile(file)
  }

  /** `getSignedUrl` as written: the link, or "" when it is absent or empty. */
  function GetSignedUrlAsWritten(fileId: string, api: DriveApi): (r: Result<string, Failure>)
    ensures var answer := api.get(GetRequest(fileId, true, SignedUrlFields));
      && (answer.Err? ==> r == Err(answer.error))
      && (answer.Ok? && answer.value.Some? ==> r == Ok(OrElse(answer.value.value.webContentLink, "")))
  {
    match api.get(GetRequest(fileId, true, SignedUrlFields))
    case Err(e) => Err(e)
    case Ok(None) => Err(Thrown(NoData))
    case Ok(Some(file)) => Ok(OrElse(file.webContentLink, ""))
  }

  /** The mask `getSignedUrl` evidently needs: the link it reads is requested too. */
  const SignedUrlFieldsWithLink: string := SignedUrlFields + ", webContentLink"

  function GetSignedUrl(fileId: string, api: DriveApi): (r: Result<string, Failure>)
    ensures var answer := api.get(GetRequest(fileId, true, SignedUrlFieldsWithLink));
      && (answer.Err? ==> r == Err(answer.error))
      && (answer.Ok? && answer.value.Some? ==> r == Ok(OrElse(answer.value.value.webContentLink, "")))
  {
    match api.get(GetRequest(fileId, true, SignedUrlFieldsWithLink))
    case Err(e) => Err(e)
    case Ok(None) => Err(Thrown(NoData))
    case Ok(Some(file)) => Ok(OrElse(file.webContentLink, ""))
  }

  /** The headers of a partial answer, passed on exactly as Drive sent them. */
  datatype PassedHeaders = PassedHeaders(
    contentLength: Option<string>,
    contentType: Option<string>,
    contentRange: Option<string>,
    contentDisposition: Option<string>)

  datatype PartialStream = PartialStream(data: seq<bv8>, headers: PassedHeaders)

  function Header(headers: map<string, string>, name: string): (v: Option<string>)
    ensures v.Some? <==> name in headers
    ensures v.Some? ==> v.value == headers[name]
  {
    if name in headers then Some(headers[name]) else None
  }

  /** The Range header is forwarded as given, and the answer's headers are
      returned without being computed or checked. */
  function StreamFile(fileId: string, range: string, api: DriveApi): (r: Result<PartialStream, Failure>)
    ensures var answer := api.media(MediaRequest(fileId, true, Some(range)));
      && (answer.Err? ==> r == Err(answer.error))
      && (answer.Ok? ==>
            && r.Ok? && r.value.data == answer.value.data
            && r.value.headers.contentLength == Header(answer.value.headers, "content-length")
            && r.value.headers.contentType == Header(answer.value.headers, "content-type")
            && r.value.headers.contentRange == Header(answer.value.headers, "content-range")
            && r.value.headers.contentDisposition == Header(answer.value.headers, "content-disposition"))
  {
    match api.media(MediaRequest(fileId, true, Some(range)))
    case Err(e) => Err(e)
    case Ok(answer) =>
      Ok(PartialStream(answer.data, PassedHeaders(
        Header(answer.headers, "content-length"),
        Header(answer.headers, "content-type"),
        Header(answer.headers, "content-range"),
        Header(answer.headers, "content-disposition"))))
  }

  // ---------------------------------------------------------------------
  // Pagination
  // ---------------------------------------------------------------------

  /** The listing request for one page of a folder's children. */
  function ListRequestFor(folderId: string, pageToken: Option<string>): (l: ListRequest)
    ensures l.q == "'" + folderId + "' in parents and trashed = false"
    ensures l.pageToken == pageToken && l.orderBy == "name" && l.pageSize == 1000
  {
    ListRequest("'" + folderId + "' in parents and trashed = false", ListFields, true, pageToken, "drive", "name", 1000)
  }

  /** The token a follow-up request carries; an empty token ends the listing. */
  function NextToken(page: FileList): (t: Option<string>)
    ensures t.Some? <==> page.nextPageToken.Value? && page.nextPageToken.s != ""
    ensures t.Some? ==> t.value == page.nextPageToken.s
  {
    if page.nextPageToken.Value? && page.nextPageToken.s != "" then Some(page.nextPageToken.s) else None
  }

  /** The entries of one page. */
  function PageFiles(page: FileList): Result<seq<IFile>, Failure> {
    if page.files.Some? then ParseAll(page.files.value) else Ok([])
  }

  type Lister = ListRequest -> Result<FileList, Failure>

  /** Whether a listing started at `pageToken` stops within `n` follow-up
      requests: a ghost bound, since Drive decides how many pages there are. */
  ghost predicate EndsWithin(list: Lister, folderId: string, pageToken: Option<string>, n: nat)
    decreases n
  {
    match list(ListRequestFor(folderId, pageToken))
    case Err(_) => true
    case Ok(page) =>
      PageFiles(page).Err? || NextToken(page).None?
      || (n > 0 && EndsWithin(list, folderId, NextToken(page), n - 1))
  }

  /** `readFolderRecursive(folderId, pageToken)`: this page's entries followed
      by those of every later page; any failure rejects the whole listing. */
  function ReadFolderRecursive(folderId: string, pageToken: Option<string>, list: Lister, ghost n: nat)
    : (r: Result<seq<IFile>, Failure>)
    requires EndsWithin(list, folderId, pageToken, n)
    ensures var answer := list(ListRequestFor(folderId, pageToken));
      && (answer.Err? ==> r == Err(answer.error))
      && (r.Ok? ==> answer.Ok? && PageFiles(answer.value).Ok?
                    && PageFiles(answer.value).value <= r.value)
      && (answer.Ok? && NextToken(answer.value).None? ==> r == PageFiles(answer.value))
    decreases n
  {
    match list(ListRequestFor(folderId, pageToken))
    case Err(e) => Err(e)
    case Ok(page) =>
      match PageFiles(page)
      case Err(e) => Err(e)
      case Ok(files) =>
        if NextToken(page).None? then Ok(files)
        else
          match ReadFolderRecursive(folderId, NextToken(page), list, n - 1)
          case Err(e) => Err(e)
          case Ok(nextFiles) => Ok(files + nextFiles)
  }

  /** `readFolder`: a listing from the first page. */
  function ReadFolder(folderId: string, list: Lister, ghost n: nat): (r: Result<seq<IFile>, Failure>)
    requires EndsWithin(list, folderId, None, n)
    ensures r == ReadFolderRecursive(folderId, None, list, n)
  {
    ReadFolderRecursive(folderId, None, list, n)
  }

  /** The listing requests sent, in order. */
  ghost function PagesRequested(folderId: string, pageToken: Option<string>, list: Lister, n: nat)
    : (requests: seq<ListRequest>)
    requires EndsWithin(list, folderId, pageToken, n)
    ensures 1 <= |requests| <= n + 1
    ensures requests[0] == ListRequestFor(folderId, pageToken)
    decreases n
  {
    var request := ListRequestFor(folderId, pageToken);
    match list(request)
    case Err(_) => [request]
    case Ok(page) =>
      if PageFiles(page).Err? || NextToken(page).None? then [request]
      else [request] + PagesRequested(folderId, NextToken(page), list, n - 1)
  }

  /** A reference reading of a run of requests: every answer must arrive and
      parse, and the entries are concatenated in request order. */
  ghost function Collected(requests: seq<ListRequest>, list: Lister): Result<seq<IFile>, Failure> {
    if requests == [] then Ok([])
    else match list(requests[0])
      case Err(e) => Err(e)
      case Ok(page) =>
        match PageFiles(page)
        case Err(e) => Err(e)
        case Ok(files) =>
          match Collected(requests[1..], list)
          case Err(e) => Err(e)
          case Ok(rest) => Ok(files + rest)
  }

  /** Every follow-up request reuses the folder and carries the previous
      page's token, and is only sent after a page that parsed. */
  lemma {:induction false} FollowUpCarriesToken(folderId: string, pageToken: Option<string>, list: Lister, n: nat, i: nat)
    requires EndsWithin(list, folderId, pageToken, n)
    requires i + 1 < |PagesRequested(folderId, pageToken, list, n)|
    ensures var requests := PagesRequested(folderId, pageToken, list, n);
      && list(requests[i]).Ok?
      && PageFiles(list(requests[i]).value).Ok?
      && NextToken(list(requests[i]).value).Some?
      && requests[i + 1] == ListRequestFor(folderId, NextToken(list(requests[i]).value))
    decreases n
  {
    var request := ListRequestFor(folderId, pageToken);
    var page := list(request).value;
    if i > 0 {
      FollowUpCarriesToken(folderId, NextToken(page), list, n - 1, i - 1);
    }
  }

  /** The last request is the one whose page failed, did not parse, or had no next token. */
  lemma {:induction false} LastRequestStops(folderId: string, pageToken: Option<string>, list: Lister, n: nat)
    requires EndsWithin(list, folderId, pageToken, n)
    ensures var requests := PagesRequested(folderId, pageToken, list, n);
      var last := list(requests[|requests| - 1]);
      last.Err? || PageFiles(last.value).Err? || NextToken(last.value).None?
    decreases n
  {
    var request := ListRequestFor(folderId, pageToken);
    match list(request)
    case Err(_) =>
    case Ok(page) =>
      if !(PageFiles(page).Err? || NextToken(page).None?) {
        LastRequestStops(folderId, NextToken(page), list, n - 1);
      }
  }

  /** The listing is exactly the collection of the pages requested. */
  lemma {:induction false} ListingCollectsRequestedPages(folderId: string, pageToken: Option<string>, list: Lister, n: nat)
    requires EndsWithin(list, folderId, pageToken, n)
    ensures ReadFolderRecursive(folderId, pageToken, list, n) == Collected(PagesRequested(folderId, pageToken, list, n), list)
    decreases n
  {
    var requests := PagesRequested(folderId, pageToken, list, n);
    var request := ListRequestFor(folderId, pageToken);
    assert requests[0] == request;
    match list(request)
    case Err(_) =>
    case Ok(page) =>
      if PageFiles(page).Err? {
      } else if NextToken(page).None? {
        assert requests[1..] == [];
        assert Collected(requests, list) == Ok(PageFiles(page).value + []);
        assert PageFiles(page).value + [] == PageFiles(page).value;
      } else {
        ListingCollectsRequestedPages(folderId, NextToken(page), list, n - 1);
        assert requests[1..] == PagesRequested(folderId, NextToken(page), list, n - 1);
      }
  }

  /** A failed answer for any requested page rejects the whole collection. */
  lemma {:induction false} AnyFailureRejects(requests: seq<ListRequest>, list: Lister, i: nat)
    requires i < |requests| && list(requests[i]).Err?
    ensures Collected(requests, list).Err?
  {
    if i > 0 {
      AnyFailureRejects(requests[1..], list, i - 1);
    }
  }

  /** Hence an error on any page rejects the listing instead of returning part of it. */
  lemma ErrorOnAnyPageRejects(folderId: string, pageToken: Option<string>, list: Lister, n: nat, i: nat)
    requires EndsWithin(list, folderId, pageToken, n)
    requires i < |PagesRequested(folderId, pageToken, list, n)|
    requires list(PagesRequested(folderId, pageToken, list, n)[i]).Err?
    ensures ReadFolderRecursive(folderId, pageToken, list, n).Err?
  {
    ListingCollectsRequestedPages(folderId, pageToken, list, n);
    AnyFailureRejects(PagesRequested(folderId, pageToken, list, n), list, i);
  }

  // ---------------------------------------------------------------------
  // Properties of the record mapping
  // ---------------------------------------------------------------------

  /** A folder record with no size is accepted and gets size 0. */
  lemma FolderWithoutSize(file: DriveFile)
    requires file.id.Value? && file.name.Value?
    requires file.size.Undefined? && file.mimeType == Value(MimeType.FolderMime)
    ensures ParseFile(file).Ok? && ParseFile(file).value.size == 0 && ParseFile(file).value.isFolder
    ensures ParseFile(file).value.mimeType == Some(MimeType.FolderMime)
  {
  }

  /** A decimal size string of a file is read as its value. */
  lemma DecimalSize(file: DriveFile, n: nat)
    requires file.id.Value? && file.name.Value? && file.size == Value(NatToString(n))
    ensures ParseFile(file).Ok? && ParseFile(file).value.size == n
  {
    NatToStringIsDigits(n);
    DigitPrefixOfDigits(NatToString(n), 10);
    DigitsValueOfNatToString(n);
  }

  /** `null` is not `undefined`: a record whose id and name are null passes the
      checks and gets an empty name and path. */
  lemma NullIdPasses(file: DriveFile)
    requires file.id.Null? && file.name.Null? && file.size.Value?
    ensures ParseFile(file).Ok? && ParseFile(file).value.path == "" && ParseFile(file).value.name == ""
  {
  }

  // ---------------------------------------------------------------------
  // The signed URL
  // ---------------------------------------------------------------------

  /** Drive's partial responses: a property left out of the `fields` mask is
      not in the answer. Stated for the link only. */
  ghost predicate HonoursFieldMask(get: GetRequest -> Result<Option<DriveFile>, Failure>) {
    forall request: GetRequest :: !Includes(request.fields, "webContentLink") && get(request).Ok? && get(request).value.Some?
      ==> get(request).value.value.webContentLink.Undefined?
  }

  /** Finding: the mask `getSignedUrl` sends leaves out the link it reads, so
      against a backend that honours the mask the URL is always "". */
  lemma SignedUrlAsWrittenIsEmpty(fileId: string, api: DriveApi)
    requires HonoursFieldMask(api.get)
    ensures GetSignedUrlAsWritten(fileId, api).Ok? ==> GetSignedUrlAsWritten(fileId, api).value == ""
  {
    var request := GetRequest(fileId, true, SignedUrlFields);
    SignedUrlFieldsLackLink();
    assert !Includes(request.fields, "webContentLink");
  }

  lemma SignedUrlFieldsLackLink()
    ensures !Includes(SignedUrlFields, "webContentLink")
  {
    NoLetterWInSignedUrlFields();
    assert "webContentLink"[0] == 'w';
    MissingCharExcludes(SignedUrlFields, "webContentLink", 0);
  }

  lemma NoLetterWInSignedUrlFields()
    ensures 'w' !in SignedUrlFields
  {
    assert 'w' !in "id, name" && 'w' !in ", size, " && 'w' !in "parents,";
    assert 'w' !in " modifiedTime" && 'w' !in ", mimeType";
  }

  /** Corrected: the mask asks for the link, and a link in the answer is returned. */
  lemma SignedUrlRequestsLink(fileId: string, api: DriveApi, link: string)
    requires link != ""
    requires api.get(GetRequest(fileId, true, SignedUrlFieldsWithLink)).Ok?
    requires api.get(GetRequest(fileId, true, SignedUrlFieldsWithLink)).value.Some?
    requires api.get(GetRequest(fileId, true, SignedUrlFieldsWithLink)).value.value.webContentLink == Value(link)
    ensures Includes(SignedUrlFieldsWithLink, "webContentLink")
    ensures GetSignedUrl(fileId, api) == Ok(link)
  {
    var k := |SignedUrlFields| + 2;
    assert SignedUrlFieldsWithLink[k..k + 14] == "webContentLink";
    assert OccursAt(SignedUrlFieldsWithLink, "webContentLink", k);
  }
}
