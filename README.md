# nest-storage, modelled in Dafny

nest-storage is a NestJS module that puts one storage interface in front of
five backends: a local directory, S3, R2 (through the same S3 class), Google
Drive and Dropbox. Most of it is glue around SDKs. This project models the
sequential logic underneath that glue and proves properties of it:

- the byte-range calculator (`buildRange`);
- the MIME lookup;
- the Dropbox token cache and RPC requests;
- the Drive record validator and its recursive pagination;
- the S3 operations over a bucket map;
- the local provider over a filesystem map;
- the shared `makeRequest` helper;
- the provider factory.

Backends appear in three forms:

- Oracles, passed as function-typed parameters: `fetch`, the zod schemas, the Drive API, S3 faults, the URL signer and `fs.readdir`.
- Maps held by a class: the S3 bucket and the local filesystem.
- Uninterpreted functions: `path.join` and `path.basename`.

Stateful providers are classes. Each method's `ensures` ties the new state, the log of calls sent (a ghost field) and the result to a pure run function of the old state. The lemmas then state the promised properties about those run functions.

Files, one module each:

| file | module | source |
|---|---|---|
| wrappers.dfy | Wrappers | Option and Result |
| js.dfy | Js | the JavaScript built-ins the source uses: `Number`, `parseInt`, `String`, `split`/`pop`, `replace`, `includes` |
| json.dfy | Json | `JSON.stringify` |
| storage_types.dfy | StorageTypes | src/types/storage.ts, src/types/options.ts |
| base_storage.dfy | BaseStorage | src/providers/baseStorage.ts |
| mimetype.dfy | MimeType | src/lib/getMimetype.ts |
| make_request.dfy | Http | src/lib/makeRequest.ts |
| dropbox_storage.dfy | DropboxStorage | src/providers/dropboxStorage.ts |
| gdrive_storage.dfy | GDriveStorage | src/providers/gDriveStorage.ts |
| key_order.dfy | KeyOrder | the key order of an S3 listing |
| s3_storage.dfy | S3Storage | src/providers/s3BaseStorage.ts |
| local_storage.dfy | LocalStorage | src/providers/localStorage.ts |
| storage_module.dfy | StorageModule | src/module/storage.module.ts |

Behaviour of the code worth knowing before reading the model:

- S3 `readFolder` returns one listing page (at most 1000 keys) and does not follow continuation.
- Drive `parseFile` rejects a record by throwing a plain `Error` whose message names the missing field.
- Every error is a `Failure`: a thrown message, an HTTP status, or a backend code passed through.
- Drive `readFolder` recurses for as long as Drive answers with a non-empty `nextPageToken`; nothing in the code bounds the number of pages, so a backend that never stops sending a token makes it recurse forever.

## Model

| member | source | states |
|---|---|---|
| BaseStorage.BuildRange | src/providers/baseStorage.ts:31-46 | contentLength is the text of end−start+1; contentRange is exactly `bytes start-end/size` with the returned offsets; contentType is the MIME type or ""; disposition is `attachment`; a second piece that does not parse as positive means end = size−1 |
| BaseStorage.RangeOffsets | src/providers/baseStorage.ts:31-34 | start is the first piece read in base 10; end is the second piece read in base 10 when that piece reads as positive without a radix, and size−1 otherwise |
| BaseStorage.ClosedRange | src/providers/baseStorage.ts:32-42 | `bytes=a-b` with b > 0 gives start a, end b, length b−a+1 and `bytes a-b/size`, with no check that a ≤ b or b < size |
| BaseStorage.OpenEndedRange | src/providers/baseStorage.ts:35 | `bytes=a-` runs to size−1 |
| BaseStorage.ZeroEndRange | src/providers/baseStorage.ts:35 | `bytes=a-0` also runs to size−1 |
| BaseStorage.StartOnlyRange | src/providers/baseStorage.ts:32-35 | a range with no `-` (parts[1] undefined) runs to size−1 |
| BaseStorage.SuffixRangeHasNaNStart | src/providers/baseStorage.ts:32-42 | a suffix range `bytes=-n` gives start NaN and length "NaN" (no error path) |
| BaseStorage.HexTextReadsBothWays | src/providers/baseStorage.ts:35 | `parseInt("0x10")` is 16, `parseInt("0x10", 10)` is 0 |
| BaseStorage.HexEndReadsAsZero | src/providers/baseStorage.ts:35 | the test reads `0x10` without a radix (16 > 0), the value is read with radix 10 (0) |
| MimeType.Lookup | src/lib/getMimetype.ts:8-60 | the table: every entry is a non-empty MIME string, neither the folder MIME nor application/octet-stream |
| MimeType.GetMimeType | src/lib/getMimetype.ts:1-63 | corrected: the result is non-empty; the folder MIME exactly when the last `.`-segment is empty; otherwise the table entry of that segment, or application/octet-stream |
| MimeType.ExtensionFollowsLastDot | src/lib/getMimetype.ts:2 | the extension is the text after the last `.` |
| MimeType.FolderMimeIffTrailingDot | src/lib/getMimetype.ts:4-6 | folder MIME iff the name is empty or ends in `.` |
| MimeType.DotFreeNameIsLookedUpWhole | src/lib/getMimetype.ts:2 | a name without `.` is looked up whole |
| MimeType.LastExtensionDecides | src/lib/getMimetype.ts:1-63 | only the segment after the last dot matters, whatever the stem |
| MimeType.DotFreeExamples | src/lib/getMimetype.ts:1-63 | `pdf` gives application/pdf, `README` gives application/octet-stream |
| MimeType.NamedExample | src/lib/getMimetype.ts:1-63 | a name `stem.ext` with a dot-free, non-empty ext gets the table entry of ext, or application/octet-stream |
| MimeType.TextExample | src/lib/getMimetype.ts:21 | `notes.txt` gives text/plain |
| MimeType.TableEntries | src/lib/getMimetype.ts:28-56 | `3gp` is video/3gpp; `jpg`, `jpeg` and `jpe` are all image/jpeg |
| MimeType.CaseSensitiveExample | src/lib/getMimetype.ts:62 | `photo.JPG` gives application/octet-stream: the lookup is exact |
| MimeType.DoubleExtensionExample | src/lib/getMimetype.ts:1-63 | `archive.tar.gz` is looked up by `gz` alone, which the table lacks, so it gives application/octet-stream |
| MimeType.FolderExamples | src/lib/getMimetype.ts:4-6 | `""` and `draft.` give the folder MIME |
| MimeType.GetMimeTypeAsWritten | src/lib/getMimetype.ts:8-62 | the lookup over a plain object also finds inherited names, whose value is not a MIME string |
| MimeType.InheritedNameIsNotAMimeType | src/lib/getMimetype.ts:62 | `notes.toString` yields the inherited function, not a string |
| Http.StringOf | src/lib/makeRequest.ts:38-40 | null and undefined become `"null"` and `"undefined"`; a string stays as it is |
| Http.PerformFetch | src/lib/makeRequest.ts:26-51 | the loops produce exactly `ExpandQuery` of the entries (and no parameters without a query); method, address and headers are passed on; the body is `SentBody` |
| Http.AppendEach | src/lib/makeRequest.ts:37-38 | the loop over an array value appends exactly that entry's parameters, one per element in order, after those already there |
| Http.EntryParamsShape | src/lib/makeRequest.ts:35-43 | an array appends one key=String(element) per element, in order; any other value appends one pair |
| Http.FetchCallFor | src/lib/makeRequest.ts:26-51 | method, address and headers are passed on; no query means no search parameters, otherwise the expanded query; a body is sent iff it is truthy |
| Http.ExpandScalarQuery | src/lib/makeRequest.ts:35-43 | a query of single values sends exactly one parameter per entry, in order, as key and `String(value)` |
| Http.ExpandQueryCons | src/lib/makeRequest.ts:35-43 | the entries are appended in entry order |
| Http.ExpandQueryAppend | src/lib/makeRequest.ts:35-43 | expanding two runs of entries is expanding each, concatenated |
| Http.ExpandedKeysComeFromQuery | src/lib/makeRequest.ts:35-43 | every parameter sent carries a key of the query |
| Http.SentBody | src/lib/makeRequest.ts:48 | the body is sent iff it is truthy, as its JSON text |
| Json.StringifyShape | src/lib/makeRequest.ts:48 | the JSON text starts with `"` exactly for a string, `{` for an object, `[` for an array |
| Json.StringifyTwiceIsString | src/lib/makeRequest.ts:48 | stringifying the text of a value again gives a quoted string, never the object's own text |
| Http.StringBodyIsQuoted | src/lib/makeRequest.ts:48 | a string body is sent JSON-quoted; "" and null send nothing |
| Http.GetData | src/lib/makeRequest.ts:53-95 | a failed fetch passes through; a non-2xx answer fails with its status; success only for a 2xx answer; a 2xx answer that is not JSON resolves with its text; a 2xx answer whose content type contains `application/json` resolves with the parsed body, or fails with `InvalidJson` when the body does not parse |
| Http.Classify | src/lib/makeRequest.ts:53-95 | non-2xx fails with {statusCode, statusText}; JSON iff the content type contains application/json (a bad body fails); otherwise text |
| Http.ClassifyOutcomes | src/lib/makeRequest.ts:57-89 | success iff 2xx (and the JSON parses when JSON is announced); the data is JSON iff the content type says so |
| Http.ContentTypeExamples | src/lib/makeRequest.ts:57-59 | `application/json; charset=utf-8` is JSON; `text/plain` and no header are text |
| Http.MakeRequest | src/lib/makeRequest.ts:97-106 | with a schema: a failure is passed on, data is the schema's parse |
| Http.MakeRequestUnchecked | src/lib/makeRequest.ts:97-106 | without a schema: the data unchanged |
| DropboxStorage.ParseFile | src/providers/dropboxStorage.ts:182-191 | path is path_lower; missing size is 0; folder iff tag is folder; MIME from the name for files and folders alike, by the corrected lookup |
| DropboxStorage.ParseFileMimeAsWritten | src/providers/dropboxStorage.ts:187 | the stored MIME type is what `getMimeType` as written yields, except for inherited names, where the program would store the inherited member |
| DropboxStorage.ListingFiles | src/providers/dropboxStorage.ts:174-175 | one entry per listed item, in order |
| DropboxStorage.Authentication | src/providers/dropboxStorage.ts:221-247 | no request iff a token is cached with expiry > now; a hit returns the cached token; a miss sends one refresh request; on success the cache and the result agree and expiry = later + ttl·1000; on failure the cache is unchanged |
| DropboxStorage.DropboxStorage.constructor | src/providers/dropboxStorage.ts:44-53 | credentials and refresh token from the options; no token cached |
| DropboxStorage.DropboxStorage.Authenticate | src/providers/dropboxStorage.ts:221-247 | the new cache, the result and the calls sent are those of `Authentication` on the old cache |
| DropboxStorage.RefreshRequest | src/providers/dropboxStorage.ts:226-240 | a GET to the token endpoint with no headers and no body; four query entries, starting with grant_type=refresh_token and the instance's refresh token |
| DropboxStorage.RefreshCallShape | src/providers/dropboxStorage.ts:226-240 | the refresh is a GET to the token endpoint with grant_type, refresh_token, client_id, client_secret in that order |
| DropboxStorage.RefreshedTokenIsReused | src/providers/dropboxStorage.ts:221-247 | after a refresh, a call before the stamped expiry sends nothing and returns the cached token |
| DropboxStorage.FirstCallRefreshes | src/providers/dropboxStorage.ts:221-224 | with no token cached the first call refreshes |
| DropboxStorage.RpcRequestAsWritten | src/providers/dropboxStorage.ts:193-219 | the address is the API root followed by the caller's path; the body is the query already serialised |
| DropboxStorage.AsWrittenAddressRepeatsBase | src/providers/dropboxStorage.ts:55-65 | with the full URL the callers pass, the address repeats the API root |
| DropboxStorage.AsWrittenBodyIsStringLiteral | src/providers/dropboxStorage.ts:202-210 | the body sent is a JSON string literal of the query text |
| DropboxStorage.RpcRequest | src/providers/dropboxStorage.ts:199-210 | corrected: address = API root + endpoint, body = the query object |
| DropboxStorage.RpcBodyIsQueryObject | src/providers/dropboxStorage.ts:207 | corrected: the body sent is the object's JSON text, starting with `{` |
| DropboxStorage.RpcOutcome | src/providers/dropboxStorage.ts:193-219 | corrected: authenticate first; an auth failure sends no RPC; otherwise one RPC with the token, validated by the schema |
| DropboxStorage.RpcOutcomeAsWritten | src/providers/dropboxStorage.ts:193-219 | as written: authenticate first; an auth failure sends no RPC; otherwise one RPC to the API root followed by the caller's path, with the query already serialised as the body |
| DropboxStorage.AsWrittenRpcMissesEndpoint | src/providers/dropboxStorage.ts:193-219 | with the full URL the callers pass, the as-written run leaves the same cache and sends the same authentication calls as the corrected one, but its RPC goes to the doubled address with a string-literal body |
| DropboxStorage.DropboxStorage.Rpc | src/providers/dropboxStorage.ts:193-219 | corrected: the new cache, the result and the calls sent are those of `RpcOutcome` |
| DropboxStorage.DropboxStorage.CreateFolder | src/providers/dropboxStorage.ts:55-65 | corrected: one `/files/create_folder_v2` RPC with `{path}`, the entry parsed |
| DropboxStorage.DropboxStorage.DeleteFileOrFolder | src/providers/dropboxStorage.ts:67-77 | corrected: one `/files/delete_v2` RPC; true whenever it succeeds |
| DropboxStorage.DropboxStorage.GetFileOrFolder | src/providers/dropboxStorage.ts:79-89 | corrected: one `/files/get_metadata` RPC, the entry parsed |
| DropboxStorage.DropboxStorage.MoveFileOrFolder | src/providers/dropboxStorage.ts:91-102 | corrected: one `/files/move_v2` RPC with from_path and to_path |
| DropboxStorage.DropboxStorage.RenameFileOrFolder | src/providers/dropboxStorage.ts:178-180 | corrected: exactly the move, with to_path = the new name verbatim |
| DropboxStorage.DropboxStorage.ReadFolder | src/providers/dropboxStorage.ts:159-176 | corrected: one `/files/list_folder` RPC, its entries parsed in order |
| DropboxStorage.ListingIgnoresCursor | src/providers/dropboxStorage.ts:174-175 | has_more and cursor change nothing |
| DropboxStorage.FolderEntryHasNameMime | src/providers/dropboxStorage.ts:187 | a folder named `Photos` gets application/octet-stream |
| DropboxStorage.UploadCall | src/providers/dropboxStorage.ts:106-120 | a POST of the raw bytes to the upload endpoint with no search parameters; the bearer token first and the JSON `{path, mode: overwrite}` as Dropbox-API-Arg |
| DropboxStorage.UploadResult | src/providers/dropboxStorage.ts:110-128 | the status is never read; a body that is not a valid entry is the one upload error; a fetch failure passes through |
| DropboxStorage.UploadIgnoresStatus | src/providers/dropboxStorage.ts:120-128 | two answers that differ only in status settle alike |
| DropboxStorage.DropboxStorage.PutFile | src/providers/dropboxStorage.ts:104-129 | authenticate, then one upload call with the token, settled by `UploadResult` |
| DropboxStorage.DownloadCall | src/providers/dropboxStorage.ts:133-145 | a POST with no body and no search parameters to the download endpoint; the bearer token first and the JSON `{path}` as Dropbox-API-Arg |
| DropboxStorage.DownloadResult | src/providers/dropboxStorage.ts:146-154 | success iff 2xx, with the body; a non-2xx answer rejects with the response |
| DropboxStorage.DropboxStorage.ReadFile | src/providers/dropboxStorage.ts:131-157 | authenticate, then one download call, settled by `DownloadResult` |
| GDriveStorage.OrElse | src/providers/gDriveStorage.ts:242-247 | `value \|\| fallback`: the string if non-empty, else the fallback |
| GDriveStorage.NumberOf | src/providers/gDriveStorage.ts:244 | `Number`: a digit string is its value, "" and null are 0, undefined is NaN |
| GDriveStorage.SizeOf | src/providers/gDriveStorage.ts:244 | `Number(size) \|\| 0` |
| GDriveStorage.ParseFile | src/providers/gDriveStorage.ts:225-249 | fails iff id undefined, name undefined, or size undefined with a non-folder MIME, with those messages in that order; otherwise path = id, folder iff folder MIME, MIME null when absent or "", size from `Number`, epoch when no time |
| GDriveStorage.FolderWithoutSize | src/providers/gDriveStorage.ts:234-244 | a folder with no size is accepted with size 0 |
| GDriveStorage.DecimalSize | src/providers/gDriveStorage.ts:244 | a decimal size string is read as its value |
| GDriveStorage.NullIdPasses | src/providers/gDriveStorage.ts:226-243 | null id and name pass the `=== undefined` checks and become "" |
| GDriveStorage.ParseAll | src/providers/gDriveStorage.ts:268 | all records parse, one entry each in order, or the page fails with the error of the first record that fails |
| GDriveStorage.CreateFolder | src/providers/gDriveStorage.ts:23-47 | one create call with the folder MIME; the answer parsed |
| GDriveStorage.PutFile | src/providers/gDriveStorage.ts:113-141 | one create call with parents ["root"] and an octet-stream media body |
| GDriveStorage.DeleteFileOrFolder | src/providers/gDriveStorage.ts:49-65 | true iff the delete succeeds |
| GDriveStorage.GetFileOrFolder | src/providers/gDriveStorage.ts:67-87 | an answer without data is "File not found" |
| GDriveStorage.MoveRequest | src/providers/gDriveStorage.ts:91-99 | adds newPath as a parent and always removes `root` |
| GDriveStorage.MoveFileOrFolder | src/providers/gDriveStorage.ts:89-111 | the update answer parsed, "File not found" without data |
| GDriveStorage.RenameRequest | src/providers/gDriveStorage.ts:165-179 | only the new name, without supportsAllDrives |
| GDriveStorage.RenameFileOrFolder | src/providers/gDriveStorage.ts:165-179 | the update answer parsed |
| GDriveStorage.GetSignedUrlAsWritten | src/providers/gDriveStorage.ts:181-192 | the link, or "" when it is absent or empty |
| GDriveStorage.SignedUrlAsWrittenIsEmpty | src/providers/gDriveStorage.ts:187-189 | against a backend that honours the fields mask, the URL is always "" |
| GDriveStorage.SignedUrlFieldsLackLink | src/providers/gDriveStorage.ts:187 | the mask does not name webContentLink |
| GDriveStorage.GetSignedUrl | src/providers/gDriveStorage.ts:181-192 | corrected mask; the link, or "" |
| GDriveStorage.SignedUrlRequestsLink | src/providers/gDriveStorage.ts:187-189 | corrected: the mask names the link, and a link in the answer is returned |
| GDriveStorage.StreamFile | src/providers/gDriveStorage.ts:194-223 | the Range is forwarded; the four headers are returned as Drive sent them |
| GDriveStorage.ListRequestFor | src/providers/gDriveStorage.ts:251-263 | the children query of the folder, the page token, by name, 1000 a page |
| GDriveStorage.NextToken | src/providers/gDriveStorage.ts:271 | a follow-up only for a present, non-empty nextPageToken |
| GDriveStorage.ReadFolderRecursive | src/providers/gDriveStorage.ts:251-281 | a failed page rejects; when it succeeds, this page's entries are at the front; with no next token, exactly this page |
| GDriveStorage.ReadFolder | src/providers/gDriveStorage.ts:161-163 | the listing from the first page |
| GDriveStorage.FollowUpCarriesToken | src/providers/gDriveStorage.ts:255-271 | each follow-up request reuses the folder and the previous page's token |
| GDriveStorage.LastRequestStops | src/providers/gDriveStorage.ts:265-276 | the last request is the one that failed, did not parse, or had no next token |
| GDriveStorage.PagesRequested | src/providers/gDriveStorage.ts:251-281 | the requests sent: at least one and at most one more than the bound, the first for the given token |
| GDriveStorage.ListingCollectsRequestedPages | src/providers/gDriveStorage.ts:268-276 | the listing is the concatenation, in order, of every requested page's entries |
| GDriveStorage.ErrorOnAnyPageRejects | src/providers/gDriveStorage.ts:265-273 | an error on any page rejects the whole listing |
| KeyOrder.SortedKeys | src/providers/s3BaseStorage.ts:109-112 | the keys of a set, strictly ascending, each once |
| S3Storage.RegionOf | src/providers/s3BaseStorage.ts:18-22 | the region, or `auto` when absent or empty |
| S3Storage.ExpiryOf | src/providers/s3BaseStorage.ts:137 | the given expiry, or 604800 s when absent or 0 |
| S3Storage.ParseFile | src/providers/s3BaseStorage.ts:150-167 | name and path are the key; size is Size, else ContentLength, else 0; MIME is ContentType or null; never a folder; LastModified or now |
| S3Storage.GetOutput | src/providers/s3BaseStorage.ts:49-55 | what getObject reports for a stored object: ContentLength = body length (no Size), its content type and LastModified |
| S3Storage.ListEntry | src/providers/s3BaseStorage.ts:115-117 | what a listing entry carries: Size = body length and LastModified, without content type |
| S3Storage.PutStep | src/providers/s3BaseStorage.ts:28-33 | putObject stores the body under the key, or fails and changes nothing |
| S3Storage.UploadStep | src/providers/s3BaseStorage.ts:85 | upload stores the body under the key and reports that key, or fails and changes nothing |
| S3Storage.GetStep | src/providers/s3BaseStorage.ts:49-54 | getObject succeeds iff the key is stored, with that object |
| S3Storage.DeleteStep | src/providers/s3BaseStorage.ts:39-44 | deleteObject removes the key and reports a delete marker only on a versioned bucket; a failure changes nothing |
| S3Storage.MoveSourceNamesFile | src/providers/s3BaseStorage.ts:63 | the copy source `bucket/fileId` names exactly the object fileId |
| S3Storage.S3BaseStorage.constructor | src/providers/s3BaseStorage.ts:10-24 | bucket from the options, region by `RegionOf` |
| S3Storage.CopyStep | src/providers/s3BaseStorage.ts:61-65 | copyObject succeeds iff the object the source `bucket/key` names exists and is not the target; the target then holds a copy stamped now; a failure changes nothing |
| S3Storage.S3BaseStorage.PutObjectCall | src/providers/s3BaseStorage.ts:28-33 | the bucket, result and log of `PutStep` |
| S3Storage.S3BaseStorage.UploadCall | src/providers/s3BaseStorage.ts:85 | the bucket, result and log of `UploadStep` |
| S3Storage.S3BaseStorage.GetObjectCall | src/providers/s3BaseStorage.ts:49-54 | the bucket unchanged; the result of `GetStep` |
| S3Storage.S3BaseStorage.DeleteObjectCall | src/providers/s3BaseStorage.ts:39-44 | the bucket, result and log of `DeleteStep` |
| S3Storage.S3BaseStorage.CopyObjectCall | src/providers/s3BaseStorage.ts:61-65 | the bucket, result and log of `CopyStep` |
| S3Storage.CreateFolderRun | src/providers/s3BaseStorage.ts:26-36 | a put, then a fetch of the same key |
| S3Storage.CreateFolderWritesEmptyObject | src/providers/s3BaseStorage.ts:26-35 | a zero-length object at exactly that key, reported with size 0 |
| S3Storage.S3BaseStorage.CreateFolder | src/providers/s3BaseStorage.ts:26-36 | the bucket, calls and result of `CreateFolderRun` |
| S3Storage.DeleteRun | src/providers/s3BaseStorage.ts:38-46 | one delete; the result is DeleteMarker, or false |
| S3Storage.S3BaseStorage.DeleteFileOrFolder | src/providers/s3BaseStorage.ts:38-46 | the bucket, calls and result of `DeleteRun` |
| S3Storage.Fetched | src/providers/s3BaseStorage.ts:48-56 | success iff the key is stored; the entry is `ParseFile` of what getObject reports |
| S3Storage.S3BaseStorage.GetFileOrFolder | src/providers/s3BaseStorage.ts:48-56 | one getObject; the bucket is unchanged; the result is `Fetched` |
| S3Storage.MoveRun | src/providers/s3BaseStorage.ts:58-77 | the calls sent are a prefix of copy, delete, fetch; stopping early means failure |
| S3Storage.S3BaseStorage.MoveFileOrFolder | src/providers/s3BaseStorage.ts:58-77 | the bucket, calls and result of `MoveRun` |
| S3Storage.S3BaseStorage.RenameFileOrFolder | src/providers/s3BaseStorage.ts:126-128 | exactly the move |
| S3Storage.MoveRelocates | src/providers/s3BaseStorage.ts:58-77 | without faults the object ends under the new key only, and its entry is returned |
| S3Storage.MoveOntoItselfFails | src/providers/s3BaseStorage.ts:61-65 | a move onto its own key stops at the copy and changes nothing |
| S3Storage.FailedCopyChangesNothing | src/providers/s3BaseStorage.ts:66-75 | a failed copy changes nothing and skips the delete |
| S3Storage.FailedDeleteKeepsBoth | src/providers/s3BaseStorage.ts:67-75 | a failed delete after a good copy leaves both keys and skips the fetch |
| S3Storage.PutFileRun | src/providers/s3BaseStorage.ts:79-87 | an upload, then a fetch of the key it reports |
| S3Storage.S3BaseStorage.PutFile | src/providers/s3BaseStorage.ts:79-87 | the bucket, calls and result of `PutFileRun` |
| S3Storage.PutFileStoresData | src/providers/s3BaseStorage.ts:79-87 | without faults the data is stored under the key and its length reported |
| S3Storage.S3BaseStorage.ReadFile | src/providers/s3BaseStorage.ts:89-104 | one getObject; the body of the stored object |
| S3Storage.S3BaseStorage.ListObjectsCall | src/providers/s3BaseStorage.ts:109-112 | one listing page: the prefix keys ascending, at most 1000, any key left out sorts after the listed ones |
| S3Storage.ListingPageIsUnique | src/providers/s3BaseStorage.ts:109-112 | a listing page is fully determined by the bucket and the prefix: the first 1000 prefix keys in ascending order, or all of them |
| S3Storage.S3BaseStorage.ReadFolder | src/providers/s3BaseStorage.ts:106-124 | one prefix listing; one entry per listed key, in order; continuation is not followed |
| S3Storage.S3BaseStorage.GetSignedUrl | src/providers/s3BaseStorage.ts:130-148 | a getObject URL for the bucket and key with `ExpiryOf(expires)` |
| LocalStorage.LocalStorage.GetFullPath | src/providers/localStorage.ts:161-163 | join(root, path) |
| LocalStorage.EntryOf | src/providers/localStorage.ts:50-57 | name is the basename of the full path; path is the argument; MIME only for files, by the corrected lookup; folder iff directory |
| LocalStorage.EntryMimeAsWritten | src/providers/localStorage.ts:54 | a file's stored MIME type is what `getMimeType` as written yields, except for inherited names, where the program would store the inherited member |
| LocalStorage.Stated | src/providers/localStorage.ts:43-61 | success iff join(root, path) exists, with `EntryOf` of its node |
| LocalStorage.MkdirStep | src/providers/localStorage.ts:20 | mkdir makes an empty directory, or fails with EEXIST and changes nothing |
| LocalStorage.WriteStep | src/providers/localStorage.ts:70 | writeFile replaces or creates the file, or fails with EISDIR on a directory |
| LocalStorage.UnlinkStep | src/providers/localStorage.ts:33 | unlink removes a file; ENOENT when missing, EISDIR on a directory, changing nothing |
| LocalStorage.RenameStep | src/providers/localStorage.ts:127 | rename moves the node to the new path (replacing what was there), or fails with ENOENT |
| LocalStorage.LocalStorage.constructor | src/providers/localStorage.ts:11-15 | the root from the options |
| LocalStorage.LocalStorage.GetFileOrFolder | src/providers/localStorage.ts:43-61 | one stat of the rooted path; the result is `Stated` |
| LocalStorage.LocalStorage.MkdirCall | src/providers/localStorage.ts:20 | the filesystem, result and log of `MkdirStep` |
| LocalStorage.LocalStorage.WriteFileCall | src/providers/localStorage.ts:70 | the filesystem, result and log of `WriteStep` |
| LocalStorage.LocalStorage.UnlinkCall | src/providers/localStorage.ts:33 | the filesystem, result and log of `UnlinkStep` |
| LocalStorage.LocalStorage.RenameCall | src/providers/localStorage.ts:127 | the filesystem, result and log of `RenameStep` |
| LocalStorage.CreateFolderAsWrittenRun | src/providers/localStorage.ts:17-28 | mkdir of the rooted path, then a stat of that path rooted again; the returned path is the rooted path |
| LocalStorage.LocalStorage.CreateFolderAsWritten | src/providers/localStorage.ts:17-28 | the filesystem, calls and result of `CreateFolderAsWrittenRun` |
| LocalStorage.CreateFolderAsWrittenMissesNewFolder | src/providers/localStorage.ts:17-28 | under root `store`, `docs` is made at store/docs and then store/store/docs is stat'd, so the call fails |
| LocalStorage.CreateFolderRun | src/providers/localStorage.ts:17-28 | corrected: mkdir, then the entry of the new directory at the caller's path |
| LocalStorage.LocalStorage.CreateFolder | src/providers/localStorage.ts:17-28 | the filesystem, calls and result of `CreateFolderRun` |
| LocalStorage.CreateFolderFindsNewFolder | src/providers/localStorage.ts:17-28 | corrected: the same call reports the folder at `docs` |
| LocalStorage.DeleteRun | src/providers/localStorage.ts:30-41 | one unlink; true whenever it succeeds |
| LocalStorage.LocalStorage.DeleteFileOrFolder | src/providers/localStorage.ts:30-41 | the filesystem, calls and result of `DeleteRun` |
| LocalStorage.PutFileRun | src/providers/localStorage.ts:67-78 | a write, then a stat at the rooted path |
| LocalStorage.LocalStorage.PutFile | src/providers/localStorage.ts:67-78 | the filesystem, calls and result of `PutFileRun` |
| LocalStorage.PutFileReportsData | src/providers/localStorage.ts:74 | the entry at the caller's path is a file of the written length |
| LocalStorage.RenameRun | src/providers/localStorage.ts:123-135 | a rename of the rooted paths, then a stat of the new one |
| LocalStorage.LocalStorage.RenameFileOrFolder | src/providers/localStorage.ts:123-135 | the filesystem, calls and result of `RenameRun` |
| LocalStorage.LocalStorage.MoveFileOrFolder | src/providers/localStorage.ts:63-65 | exactly the rename |
| LocalStorage.RenameReportsNewPath | src/providers/localStorage.ts:131 | the node moves and is reported at the new path |
| LocalStorage.ReadFileRun | src/providers/localStorage.ts:80-94 | a folder fails "Cannot read a folder" before any stream is opened; a file is opened and its bytes returned |
| LocalStorage.LocalStorage.ReadFile | src/providers/localStorage.ts:80-94 | the filesystem, calls and result of `ReadFileRun` |
| LocalStorage.StreamFileRun | src/providers/localStorage.ts:137-155 | a folder fails "Cannot stream a folder" before any stream is opened; a missing path fails with ENOENT; the filesystem is unchanged |
| LocalStorage.StreamOpensBuiltRange | src/providers/localStorage.ts:141-150 | a file is opened over exactly the start and end buildRange computes for its entry, and those offsets and headers are returned |
| LocalStorage.LocalStorage.OpenRange | src/providers/localStorage.ts:145-150 | one read stream over buildRange's offsets, returned with its headers; the filesystem unchanged |
| LocalStorage.LocalStorage.StreamFile | src/providers/localStorage.ts:137-155 | the filesystem, calls and result of `StreamFileRun` |
| LocalStorage.ReadFolderRun | src/providers/localStorage.ts:96-121 | a missing path fails `ENOENT` after its one stat; a file fails "Cannot read a file"; a folder is stat'd and listed, a failed `readdir` fails with its error, otherwise every child is stat'd (`ChildStats`) and the result is `StatChildren` of the listed names |
| LocalStorage.LocalStorage.ReadFolder | src/providers/localStorage.ts:96-121 | the filesystem, calls and result of `ReadFolderRun` |
| LocalStorage.ChildStats | src/providers/localStorage.ts:108-112 | one stat per child, at join(root, join(folderId, child)), in listing order |
| LocalStorage.ListingRun | src/providers/localStorage.ts:103-115 | a folder's run begins with its stat and one `readdir` of its full path and leaves the filesystem unchanged; a failed `readdir` ends the run with its error; otherwise one stat per listed child follows (`ChildStats`) and the result is `StatChildren` of the names |
| LocalStorage.LocalStorage.ListFolder | src/providers/localStorage.ts:103-115 | after the folder's stat: the filesystem is unchanged; one `readdir`, whose failure is the result; otherwise one stat per child (`ChildStats`) and the result `StatChildren` of the names |
| LocalStorage.LocalStorage.StatEachChild | src/providers/localStorage.ts:108-114 | every child is stat'd; the entries are those of `StatChildren` |
| LocalStorage.StatChildren | src/providers/localStorage.ts:108-114 | the `Promise.all` over the children: on success one entry per child; the only failure is a missing child |
| LocalStorage.ListedChildren | src/providers/localStorage.ts:108-114 | on success one entry per child in listing order, with path join(folderId, child) |
| LocalStorage.ListingFailsIffChildMissing | src/providers/localStorage.ts:108-114 | the listing fails iff some child cannot be stat'd |
| LocalStorage.LocalStorage.GetSignedUrl | src/providers/localStorage.ts:157-159 | always fails, with "Cannot get signed url for <id> in local storage" |
| StorageModule.TagOf | src/types/options.ts:8-14 | the enum value a string names, if any |
| StorageModule.ProviderFactory | src/module/storage.module.ts:15-29 | LOCAL gives LocalStorage; S3 and R2 give S3BaseStorage; GDRIVE and DROPBOX their classes; fails iff the tag is not an enum value, with "Invalid storage provider" |
| StorageModule.S3AndR2ShareTheS3Class | src/module/storage.module.ts:19-21 | S3 and R2 build the same class from the same options |
| StorageModule.FactoryAcceptsExactlyTheEnum | src/module/storage.module.ts:16-28 | success iff the tag is one of the five enum values |
| StorageModule.CreateService | src/module/storage.module.ts:31-42 | exactly one StorageService over the factory's provider, both provided and exported |
| StorageModule.ForRoot | src/module/storage.module.ts:44-49 | module StorageModule with exactly that providers/exports pair |
| StorageModule.ForRootWrapsTheProvider | src/module/storage.module.ts:31-49 | the module of a good configuration holds one service over the factory's provider |
| StorageModule.LowerCaseTagIsRejected | src/module/storage.module.ts:26-27 | `local` is not `LOCAL` and is rejected |

## Left out

- I/O: the `googleapis`, `aws-sdk`, `fetch` and Node `fs` calls are oracles or map steps. Streams are returned as the bytes or the opened range they would deliver.
- Promise and callback plumbing and concurrency: operations run sequentially. Drive `readFile` never resolves (src/providers/gDriveStorage.ts:143-158), so it is not modelled.
- Timing: the Dropbox clock is two integer readings passed in. Concurrent token refreshes are not modelled.
- `path.join` and `path.basename` are uninterpreted. Path normalisation and `..` are not modelled.
- Directory listings come from a `readdir` oracle over the current filesystem. Renaming a directory moves only its own node.
- `fs` parent-directory checks and permission errors are not modelled.
- The size of a new directory is a fixed 4096.
- zod schemas are oracles from data to a value or a mismatch.
- URL parsing and percent-encoding (`new URL`, search parameters, S3 copy sources) are not modelled, nor a `new URL` failure.
- `Object.entries` order is taken as the order of the query sequence.
- JavaScript numbers are integers or NaN. Floats, `Infinity` and negative zero are not modelled.
- `parseInt` is modelled with its leading white space (the ASCII spaces, NBSP, BOM, the Unicode space separators and the line and paragraph separators), one sign, the `0x`/`0X` prefix when no radix is given, and the longest run of digits. Fractions and exponents are not needed: `parseInt` stops at the first non-digit.
- GDriveStorage.NumberOf: `Number` is modelled for decimal digit strings, `""`, `null` and `undefined` only, the forms Drive's size strings take. Every other string gives NaN in the model, while `Number` also accepts surrounding white space, a sign, `0x`, fractions and exponents (`Number(" 12")` is 12, `Number("1e3")` is 1000).
- `Date` values are kept as the text the backend sent or as milliseconds. They are not parsed.
- The abort signal of `makeRequest` is not modelled.
- DropboxStorage.RpcOutcome: the Dropbox class runs the corrected request: each public method names its endpoint below the API root, and the query object is the JSON body. As written, the callers pass full URLs that the helper prefixes with the API root again, and the body is a JSON string literal. That as-written run is `RpcOutcomeAsWritten`, and `AsWrittenRpcMissesEndpoint` states how the two differ. The class methods `Rpc`, `CreateFolder`, `DeleteFileOrFolder`, `GetFileOrFolder`, `MoveFileOrFolder`, `RenameFileOrFolder` and `ReadFolder` therefore describe the corrected program.
- DropboxStorage.ParseFile: the MIME type comes from the corrected lookup `MimeType.GetMimeType`. For a name whose extension is an inherited `Object.prototype` member (`toString`, `constructor`, ...), the program stores that member instead; `ParseFileMimeAsWritten` states where the two agree.
- LocalStorage.EntryOf: the MIME type comes from the corrected lookup `MimeType.GetMimeType`, with the same difference for inherited names; `EntryMimeAsWritten` states where the two agree.
- LocalStorage.StreamFileRun: the `createReadStream` oracle never refuses a range. Node throws for a NaN start (a suffix range `bytes=-n`), a negative end (an empty file) or a start past the end, and the source turns that throw into a rejection; the model returns the stream.
- LocalStorage.RenameStep: the only refusal is a missing source (ENOENT). The type conflicts of `rename` (EISDIR, ENOTDIR, ENOTEMPTY) are not modelled.
- GDriveStorage.ReadFolderRecursive: the recursion is bounded by the backend's termination (`EndsWithin`), because the source itself recurses forever while Drive keeps returning a next-page token.
- GDriveStorage.ParseFile: a throw inside a Drive callback is really uncaught. The model treats it as a rejection of the operation.
- GDriveStorage.RenameFileOrFolder: an answer without data really throws a TypeError. The model states only its message prefix.
- S3 service semantics are reduced to a map: a default content type, versions and metadata are left out. Copy onto itself is refused, as the service does without new metadata.
- KeyOrder.SortedKeys: keys are ordered by code point, which matches S3's UTF-8 byte order for keys without surrogate pairs.
- The provider class constructors record their options. The SDK clients they build are not modelled.
- src/service/storage.service.ts only delegates to the provider and is not modelled.
- The NestJS decorators and DynamicModule semantics beyond the returned object are not modelled.

## Findings

| source | as written | input that shows it | evidently intended | confidence | as-written member | corrected member |
|---|---|---|---|---|---|---|
| src/providers/dropboxStorage.ts:201 | callers pass the full URL as `path` and the helper puts the API root in front again | createFolder("/a"): the address is `https://api.dropboxapi.com/2https://api.dropboxapi.com/2/files/create_folder_v2` | address = API root + the endpoint path | high, not executed | DropboxStorage.AsWrittenAddressRepeatsBase | DropboxStorage.RpcRequest |
| src/providers/dropboxStorage.ts:207 | the query is `JSON.stringify`'d and makeRequest stringifies that string again | query `{path:"/a"}` is sent as `"{\"path\":\"/a\"}"`, a JSON string | the query object is sent as the JSON body | high, not executed | DropboxStorage.AsWrittenBodyIsStringLiteral | DropboxStorage.RpcBodyIsQueryObject |
| src/providers/localStorage.ts:18-24 | the rooted path is passed to getFileOrFolder, which roots it again | root `store`, createFolder("docs"): mkdir `store/docs`, then stat `store/store/docs`, which fails | stat the directory just made and report it at the caller's path | high, not executed | LocalStorage.CreateFolderAsWrittenMissesNewFolder | LocalStorage.CreateFolderFindsNewFolder |
| src/lib/getMimetype.ts:8-62 | the table is a plain object, so inherited names are found by the lookup | getMimeType("notes.toString") gives a function, not a MIME string | only table entries are found; anything else is application/octet-stream | medium, not executed | MimeType.InheritedNameIsNotAMimeType | MimeType.GetMimeType |
| src/providers/gDriveStorage.ts:187-189 | the `fields` mask leaves out webContentLink, which is then read | any file: Drive's partial response has no link, so the URL is "" | the mask names webContentLink | medium, not executed | GDriveStorage.SignedUrlAsWrittenIsEmpty | GDriveStorage.SignedUrlRequestsLink |
