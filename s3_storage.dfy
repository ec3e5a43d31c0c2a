/**
  `S3BaseStorage` (src/providers/s3BaseStorage.ts), used for S3 and R2.
  The bucket is a map from key to object held by the provider; every SDK
  call is one step over that map, logged in order, and may be refused by a
  fault oracle standing in for the network and the service.
 */
module S3Storage {
  import opened Wrappers
  import opened Js
  import opened StorageTypes
  import KeyOrder

  /** `60 * 60 * 24 * 7` seconds. */
  const DefaultExpiry: int := 604800
  /** The largest page one `listObjectsV2` call returns. */
  const MaxKeys: nat := 1000
  const NoSuchKey: Failure := Backend("NoSuchKey")
  const InvalidRequest: Failure := Backend("InvalidRequest")

  /** A stored object. Nothing the provider writes sets a content type. */
  datatype S3Object = S3Object(body: seq<bv8>, contentType: Option<string>, lastModified: int)

  type Bucket = map<string, S3Object>

  /** What `parseFile` reads: a listed `S3.Object` has `Size`, a
      `GetObjectOutput` has `ContentLength` and `ContentType`. */
  datatype S3Record = S3Record(
    size: Option<int>,
    contentLength: Option<int>,
    contentType: Option<string>,
    lastModified: Option<int>)

  /** The SDK calls, as sent. */
  datatype S3Call =
    | PutObject(key: string, body: seq<bv8>)
    | GetObject(key: string)
    | DeleteObject(key: string)
    | CopyObject(copySource: string, key: string)
    | Upload(key: string, body: seq<bv8>)
    | ListObjectsV2(prefix: string)

  /** Which calls the network or the service refuses, and with what. */
  type Faults = S3Call -> Option<Failure>

  /** `options.region || 'auto'`. */
  function RegionOf(options: S3Options): (region: string)
    ensures options.region.Some? && options.region.value != "" ==> region == options.region.value
    ensures options.region.None? || options.region == Some("") ==> region == "auto"
  {
    if options.region.Some? && options.region.value != "" then options.region.value else "auto"
  }

  /** `expires || 60 * 60 * 24 * 7`: an absent or zero expiry means one week. */
  function ExpiryOf(expires: Option<int>): (seconds: int)
    ensures expires.None? || expires == Some(0) ==> seconds == 60 * 60 * 24 * 7
    ensures expires.Some? && expires.value != 0 ==> seconds == expires.value
  {
    if expires.Some? && expires.value != 0 then expires.value else DefaultExpiry
  }

  /** `parseFile(fileId, data)`: the key is name and path; the size is `Size`,
      else `ContentLength`, else 0; it is never a folder; without a
      modification time it is `now`. */
  function ParseFile(fileId: string, data: S3Record, now: int): (f: IFile)
    ensures f.name == fileId && f.path == fileId
    ensures data.size.Some? ==> f.size == data.size.value
    ensures data.size.None? && data.contentLength.Some? ==> f.size == data.contentLength.value
    ensures data.size.None? && data.contentLength.None? ==> f.size == 0
    ensures f.mimeType == data.contentType && !f.isFolder
    ensures f.modifiedAt == At(data.lastModified.GetOr(now))
  {
    IFile(
      fileId,
      fileId,
      if data.size.Some? then data.size.value
      else if data.contentLength.Some? then data.contentLength.value
      else 0,
      data.contentType,
      false,
      At(data.lastModified.GetOr(now)))
  }

  /** What `getObject` reports about an object. */
  function GetOutput(o: S3Object): (d: S3Record)
    ensures d.size.None? && d.contentLength == Some(|o.body|)
    ensures d.contentType == o.contentType && d.lastModified == Some(o.lastModified)
  {
    S3Record(None, Some(|o.body|), o.contentType, Some(o.lastModified))
  }

  /** What a listing reports about an object. */
  function ListEntry(o: S3Object): (d: S3Record)
    ensures d.size == Some(|o.body|) && d.contentLength.None? && d.contentType.None?
    ensures d.lastModified == Some(o.lastModified)
  {
    S3Record(Some(|o.body|), None, None, Some(o.lastModified))
  }

  // ---------------------------------------------------------------------
  // The bucket, one call at a time
  // ---------------------------------------------------------------------

  /** The bucket after a call and what the call answered. */
  datatype Step<T> = Step(bucket: Bucket, result: Result<T, Failure>)

  function PutStep(b: Bucket, key: string, body: seq<bv8>, now: int, faults: Faults): (s: Step<()>)
    ensures faults(PutObject(key, body)).Some? ==> s.bucket == b && s.result.Err?
    ensures faults(PutObject(key, body)).None? ==> s.bucket == b[key := S3Object(body, None, now)] && s.result.Ok?
  {
    if faults(PutObject(key, body)).Some? then Step(b, Err(faults(PutObject(key, body)).value))
    else Step(b[key := S3Object(body, None, now)], Ok(()))
  }

  function UploadStep(b: Bucket, key: string, body: seq<bv8>, now: int, faults: Faults): (s: Step<string>)
    ensures faults(Upload(key, body)).Some? ==> s.bucket == b && s.result.Err?
    ensures faults(Upload(key, body)).None? ==> s.bucket == b[key := S3Object(body, None, now)] && s.result == Ok(key)
  {
    if faults(Upload(key, body)).Some? then Step(b, Err(faults(Upload(key, body)).value))
    else Step(b[key := S3Object(body, None, now)], Ok(key))
  }

  function GetStep(b: Bucket, key: string, faults: Faults): (r: Result<S3Object, Failure>)
    ensures r.Ok? <==> faults(GetObject(key)).None? && key in b
    ensures r.Ok? ==> r.value == b[key]
  {
    if faults(GetObject(key)).Some? then Err(faults(GetObject(key)).value)
    else if key in b then Ok(b[key])
    else Err(NoSuchKey)
  }

  /** Deleting a key that is not there succeeds too; a versioned bucket answers with a delete marker. */
  function DeleteStep(b: Bucket, key: string, versioned: bool, faults: Faults): (s: Step<Option<bool>>)
    ensures faults(DeleteObject(key)).Some? ==> s.bucket == b && s.result.Err?
    ensures faults(DeleteObject(key)).None? ==>
      s.bucket == b - {key} && s.result == Ok(if versioned then Some(true) else None)
  {
    if faults(DeleteObject(key)).Some? then Step(b, Err(faults(DeleteObject(key)).value))
    else Step(b - {key}, Ok(if versioned then Some(true) else None))
  }

  /** The bucket and key a copy source `bucket/key` names, when it names one of this bucket. */
  predicate CopiesFrom(bucketName: string, copySource: string, source: string) {
    IsPrefix(bucketName + "/", copySource) && copySource[|bucketName| + 1..] == source
  }

  /** A copy source names `bucket/key`; copying an object onto itself
      without new metadata is refused by the service. */
  function CopyStep(b: Bucket, bucketName: string, copySource: string, key: string, now: int, faults: Faults): (s: Step<()>)
    ensures s.result.Err? ==> s.bucket == b
    ensures s.result.Ok? <==> faults(CopyObject(copySource, key)).None?
                              && exists source :: CopiesFrom(bucketName, copySource, source) && source in b && source != key
    ensures forall source :: s.result.Ok? && CopiesFrom(bucketName, copySource, source) ==>
              s.bucket == b[key := b[source].(lastModified := now)]
  {
    if faults(CopyObject(copySource, key)).Some? then Step(b, Err(faults(CopyObject(copySource, key)).value))
    else if IsPrefix(bucketName + "/", copySource) then
      var source := copySource[|bucketName| + 1..];
      if source !in b then Step(b, Err(NoSuchKey))
      else if source == key then Step(b, Err(InvalidRequest))
      else Step(b[key := b[source].(lastModified := now)], Ok(()))
    else Step(b, Err(NoSuchKey))
  }

  /** The keys a prefix listing covers. */
  function PrefixKeys(b: Bucket, prefix: string): set<string> {
    set k | k in b && IsPrefix(prefix, k)
  }

  /** One page of a prefix listing: the covered keys in ascending order, at most `MaxKeys` of them. */
  predicate IsListingPage(keys: seq<string>, b: Bucket, prefix: string) {
    && |keys| == (if |PrefixKeys(b, prefix)| <= MaxKeys then |PrefixKeys(b, prefix)| else MaxKeys)
    && KeyOrder.Sorted(keys)
    && (forall i :: 0 <= i < |keys| ==> keys[i] in PrefixKeys(b, prefix))
    && (forall k :: k in PrefixKeys(b, prefix) && k !in keys ==>
          forall i :: 0 <= i < |keys| ==> KeyOrder.Less(keys[i], k))
  }

  /** A listing page is fully determined by the bucket and the prefix: the
      first `MaxKeys` prefix keys in ascending order, or all of them. */
  lemma {:induction false} ListingPageIsUnique(keys: seq<string>, other: seq<string>, b: Bucket, prefix: string)
    requires IsListingPage(keys, b, prefix) && IsListingPage(other, b, prefix)
    ensures keys == other
  {
    if keys != other {
      var i := FirstDifference(keys, other);
      KeyOrder.LessTotal(keys[i], other[i]);
      SmallerKeyIsListed(keys, other, b, prefix, i);
      SmallerKeyIsListed(other, keys, b, prefix, i);
    }
  }

  /** Where two pages first differ, neither key can be the smaller one: the
      smaller key would have to be listed on the other page too. */
  lemma SmallerKeyIsListed(keys: seq<string>, other: seq<string>, b: Bucket, prefix: string, i: nat)
    requires IsListingPage(keys, b, prefix) && IsListingPage(other, b, prefix)
    requires i < |keys| && forall j :: 0 <= j < i ==> keys[j] == other[j]
    ensures !KeyOrder.Less(keys[i], other[i])
  {
    var x := keys[i];
    if !KeyOrder.Less(x, other[i]) {
    } else if x in other {
      var j :| 0 <= j < |other| && other[j] == x;
      if j < i {
        assert KeyOrder.Less(keys[j], keys[i]);
        KeyOrder.LessIrreflexive(x);
      } else if j == i {
        KeyOrder.LessIrreflexive(x);
      } else {
        assert KeyOrder.Less(other[i], other[j]);
        KeyOrder.LessAsymmetric(x, other[i]);
      }
    } else {
      assert KeyOrder.Less(other[i], x);
      KeyOrder.LessAsymmetric(x, other[i]);
    }
  }

  /** The first index where two sequences of one length differ. */
  lemma {:induction false} FirstDifference(a: seq<string>, c: seq<string>) returns (i: nat)
    requires |a| == |c| && a != c
    ensures i < |a| && a[i] != c[i]
    ensures forall j :: 0 <= j < i ==> a[j] == c[j]
    decreases |a|
  {
    if a[0] != c[0] {
      i := 0;
    } else {
      assert a == [a[0]] + a[1..] && c == [c[0]] + c[1..];
      var k := FirstDifference(a[1..], c[1..]);
      i := k + 1;
      forall j | 0 < j < i ensures a[j] == c[j] {
        assert a[j] == a[1..][j - 1] && c[j] == c[1..][j - 1];
      }
    }
  }

  /** The entries `readFolder` makes of a listing page: one per listed key, in order. */
  predicate ListingEntries(keys: seq<string>, files: seq<IFile>, b: Bucket, prefix: string, now: int) {
    && IsListingPage(keys, b, prefix)
    && |keys| == |files|
    && forall i :: 0 <= i < |keys| ==> files[i] == ParseFile(keys[i], ListEntry(b[keys[i]]), now)
  }

  /** `getFileOrFolder` over a bucket. */
  function Fetched(b: Bucket, key: string, now: int, faults: Faults): (r: Result<IFile, Failure>)
    ensures r.Ok? <==> faults(GetObject(key)).None? && key in b
    ensures r.Ok? ==> r.value == ParseFile(key, GetOutput(b[key]), now)
  {
    match GetStep(b, key, faults)
    case Err(e) => Err(e)
    case Ok(o) => Ok(ParseFile(key, GetOutput(o), now))
  }

  // ---------------------------------------------------------------------
  // Operations as runs over the bucket
  // ---------------------------------------------------------------------

  /** The bucket after an operation, the calls it sent in order, and its result. */
  datatype Run<T> = Run(bucket: Bucket, sent: seq<S3Call>, result: Result<T, Failure>)

  /** `createFolder`: an empty object at exactly `path`, then its entry. */
  function CreateFolderRun(b: Bucket, path: string, now: int, faults: Faults): (run: Run<IFile>)
    ensures run.sent == [PutObject(path, [])] || run.sent == [PutObject(path, []), GetObject(path)]
  {
    var put := PutStep(b, path, [], now, faults);
    if put.result.Err? then Run(put.bucket, [PutObject(path, [])], Err(put.result.error))
    else Run(put.bucket, [PutObject(path, []), GetObject(path)], Fetched(put.bucket, path, now, faults))
  }

  /** `putFile`: an upload, then the entry of the key the upload reports. */
  function PutFileRun(b: Bucket, path: string, data: seq<bv8>, now: int, faults: Faults): (run: Run<IFile>)
    ensures run.sent == [Upload(path, data)] || run.sent == [Upload(path, data), GetObject(path)]
  {
    var up := UploadStep(b, path, data, now, faults);
    if up.result.Err? then Run(up.bucket, [Upload(path, data)], Err(up.result.error))
    else Run(up.bucket, [Upload(path, data), GetObject(up.result.value)], Fetched(up.bucket, up.result.value, now, faults))
  }

  /** `deleteFileOrFolder`: `DeleteMarker || false`. */
  function DeleteRun(b: Bucket, fileId: string, versioned: bool, faults: Faults): (run: Run<bool>)
    ensures run.sent == [DeleteObject(fileId)]
    ensures run.result.Ok? ==> run.result.value == versioned
  {
    var del := DeleteStep(b, fileId, versioned, faults);
    match del.result
    case Err(e) => Run(del.bucket, [DeleteObject(fileId)], Err(e))
    case Ok(marker) => Run(del.bucket, [DeleteObject(fileId)], Ok(marker.GetOr(false)))
  }

  /** The three calls of a move, in order. */
  function MoveSteps(bucketName: string, fileId: string, newPath: string): seq<S3Call> {
    [CopyObject(bucketName + "/" + fileId, newPath), DeleteObject(fileId), GetObject(newPath)]
  }

  /** `moveFileOrFolder`: copy, then delete the source, then fetch the
      target; a failed step ends the move. */
  function MoveRun(b: Bucket, bucketName: string, versioned: bool, fileId: string, newPath: string,
                   now: int, faults: Faults): (run: Run<IFile>)
    ensures 1 <= |run.sent| && run.sent <= MoveSteps(bucketName, fileId, newPath)
    ensures |run.sent| < 3 ==> run.result.Err?
  {
    var source := bucketName + "/" + fileId;
    var copy := CopyStep(b, bucketName, source, newPath, now, faults);
    if copy.result.Err? then Run(copy.bucket, [CopyObject(source, newPath)], Err(copy.result.error))
    else
      var del := DeleteStep(copy.bucket, fileId, versioned, faults);
      if del.result.Err? then Run(del.bucket, [CopyObject(source, newPath), DeleteObject(fileId)], Err(del.result.error))
      else Run(del.bucket, MoveSteps(bucketName, fileId, newPath), Fetched(del.bucket, newPath, now, faults))
  }

  // ---------------------------------------------------------------------
  // The provider
  // ---------------------------------------------------------------------

  class S3BaseStorage {
    const bucket: string
    const region: string
    /** Whether the bucket keeps versions, so that a delete leaves a marker. */
    const versioned: bool
    var objects: Bucket
    /** Every SDK call sent so far. */
    ghost var calls: seq<S3Call>

    constructor(options: S3Options, versioned: bool, objects: Bucket)
      ensures bucket == options.bucket && region == RegionOf(options)
      ensures this.versioned == versioned && this.objects == objects && calls == []
    {
      bucket := options.bucket;
      region := RegionOf(options);
      this.versioned := versioned;
      this.objects := objects;
      calls := [];
    }

    method PutObjectCall(key: string, body: seq<bv8>, now: int, faults: Faults) returns (r: Result<(), Failure>)
      modifies this
      ensures objects == PutStep(old(objects), key, body, now, faults).bucket
      ensures r == PutStep(old(objects), key, body, now, faults).result
      ensures calls == old(calls) + [PutObject(key, body)]
    {
      var step := PutStep(objects, key, body, now, faults);
      objects, r := step.bucket, step.result;
      calls := calls + [PutObject(key, body)];
    }

    method UploadCall(key: string, body: seq<bv8>, now: int, faults: Faults) returns (r: Result<string, Failure>)
      modifies this
      ensures objects == UploadStep(old(objects), key, body, now, faults).bucket
      ensures r == UploadStep(old(objects), key, body, now, faults).result
      ensures calls == old(calls) + [Upload(key, body)]
    {
      var step := UploadStep(objects, key, body, now, faults);
      objects, r := step.bucket, step.result;
      calls := calls + [Upload(key, body)];
    }

    method GetObjectCall(key: string, faults: Faults) returns (r: Result<S3Object, Failure>)
      modifies this
      ensures objects == old(objects) && r == GetStep(objects, key, faults)
      ensures calls == old(calls) + [GetObject(key)]
    {
      r := GetStep(objects, key, faults);
      calls := calls + [GetObject(key)];
    }

    method DeleteObjectCall(key: string, faults: Faults) returns (r: Result<Option<bool>, Failure>)
      modifies this
      ensures objects == DeleteStep(old(objects), key, versioned, faults).bucket
      ensures r == DeleteStep(old(objects), key, versioned, faults).result
      ensures calls == old(calls) + [DeleteObject(key)]
    {
      var step := DeleteStep(objects, key, versioned, faults);
      objects, r := step.bucket, step.result;
      calls := calls + [DeleteObject(key)];
    }

    method CopyObjectCall(copySource: string, key: string, now: int, faults: Faults) returns (r: Result<(), Failure>)
      modifies this
      ensures objects == CopyStep(old(objects), bucket, copySource, key, now, faults).bucket
      ensures r == CopyStep(old(objects), bucket, copySource, key, now, faults).result
      ensures calls == old(calls) + [CopyObject(copySource, key)]
    {
      var step := CopyStep(objects, bucket, copySource, key, now, faults);
      objects, r := step.bucket, step.result;
      calls := calls + [CopyObject(copySource, key)];
    }

    /** `listObjectsV2` with a prefix: one page, in key order. */
    method ListObjectsCall(prefix: string, faults: Faults) returns (r: Result<seq<string>, Failure>)
      modifies this
      ensures objects == old(objects) && calls == old(calls) + [ListObjectsV2(prefix)]
      ensures faults(ListObjectsV2(prefix)).Some? ==> r == Err(faults(ListObjectsV2(prefix)).value)
      ensures faults(ListObjectsV2(prefix)).None? ==> r.Ok? && IsListingPage(r.value, objects, prefix)
    {
      calls := calls + [ListObjectsV2(prefix)];
      if faults(ListObjectsV2(prefix)).Some? {
        return Err(faults(ListObjectsV2(prefix)).value);
      }
      var keys := KeyOrder.SortedKeys(PrefixKeys(objects, prefix));
      if |keys| <= MaxKeys {
        return Ok(keys);
      }
      var page := keys[..MaxKeys];
      forall k | k in PrefixKeys(objects, prefix) && k !in page
        ensures forall i :: 0 <= i < |page| ==> KeyOrder.Less(page[i], k)
      {
        var j :| 0 <= j < |keys| && keys[j] == k;
        assert j >= MaxKeys;
      }
      r := Ok(page);
    }

    method GetFileOrFolder(fileId: string, now: int, faults: Faults) returns (r: Result<IFile, Failure>)
      modifies this
      ensures objects == old(objects) && calls == old(calls) + [GetObject(fileId)]
      ensures r == Fetched(objects, fileId, now, faults)
    {
      var data := GetObjectCall(fileId, faults);
      if data.Err? {
        return Err(data.error);
      }
      r := Ok(ParseFile(fileId, GetOutput(data.value), now));
    }

    method CreateFolder(path: string, now: int, faults: Faults) returns (r: Result<IFile, Failure>)
      modifies this
      ensures var run := CreateFolderRun(old(objects), path, now, faults);
        objects == run.bucket && calls == old(calls) + run.sent && r == run.result
    {
      var put := PutObjectCall(path, [], now, faults);
      if put.Err? {
        return Err(put.error);
      }
      r := GetFileOrFolder(path, now, faults);
    }

    method DeleteFileOrFolder(fileId: string, faults: Faults) returns (r: Result<bool, Failure>)
      modifies this
      ensures var run := DeleteRun(old(objects), fileId, versioned, faults);
        objects == run.bucket && calls == old(calls) + run.sent && r == run.result
    {
      var data := DeleteObjectCall(fileId, faults);
      if data.Err? {
        return Err(data.error);
      }
      r := Ok(data.value.GetOr(false));
    }

    method MoveFileOrFolder(fileId: string, newPath: string, now: int, faults: Faults) returns (r: Result<IFile, Failure>)
      modifies this
      ensures var run := MoveRun(old(objects), bucket, versioned, fileId, newPath, now, faults);
        objects == run.bucket && calls == old(calls) + run.sent && r == run.result
    {
      var copied := CopyObjectCall(bucket + "/" + fileId, newPath, now, faults);
      if copied.Err? {
        return Err(copied.error);
      }
      var deleted := DeleteFileOrFolder(fileId, faults);
      if deleted.Err? {
        return Err(deleted.error);
      }
      r := GetFileOrFolder(newPath, now, faults);
    }

    method RenameFileOrFolder(fileId: string, newName: string, now: int, faults: Faults) returns (r: Result<IFile, Failure>)
      modifies this
      ensures var run := MoveRun(old(objects), bucket, versioned, fileId, newName, now, faults);
        objects == run.bucket && calls == old(calls) + run.sent && r == run.result
    {
      r := MoveFileOrFolder(fileId, newName, now, faults);
    }

    method PutFile(path: string, data: seq<bv8>, now: int, faults: Faults) returns (r: Result<IFile, Failure>)
      modifies this
      ensures var run := PutFileRun(old(objects), path, data, now, faults);
        objects == run.bucket && calls == old(calls) + run.sent && r == run.result
    {
      var uploaded := UploadCall(path, data, now, faults);
      if uploaded.Err? {
        return Err(uploaded.error);
      }
      r := GetFileOrFolder(uploaded.value, now, faults);
    }

    method ReadFile(fileId: string, faults: Faults) returns (r: Result<seq<bv8>, Failure>)
      modifies this
      ensures objects == old(objects) && calls == old(calls) + [GetObject(fileId)]
      ensures r.Ok? <==> GetStep(objects, fileId, faults).Ok?
      ensures r.Ok? ==> r.value == objects[fileId].body
    {
      var data := GetObjectCall(fileId, faults);
      if data.Err? {
        return Err(data.error);
      }
      r := Ok(data.value.body);
    }

    /** One listing under the prefix, each listed object as an entry; later pages are not fetched. */
    method ReadFolder(folderId: string, now: int, faults: Faults) returns (r: Result<seq<IFile>, Failure>)
      modifies this
      ensures objects == old(objects) && calls == old(calls) + [ListObjectsV2(folderId)]
      ensures r.Ok? <==> faults(ListObjectsV2(folderId)).None?
      ensures r.Ok? ==> exists keys :: ListingEntries(keys, r.value, objects, folderId, now)
    {
      var listed := ListObjectsCall(folderId, faults);
      if listed.Err? {
        return Err(listed.error);
      }
      var keys := listed.value;
      var b := objects;
      var files := seq(|keys|, i requires 0 <= i < |keys| && keys[i] in b => ParseFile(keys[i], ListEntry(b[keys[i]]), now));
      assert ListingEntries(keys, files, objects, folderId, now);
      r := Ok(files);
    }

    /** A presigned `getObject` URL; signing is done by the SDK without a call. */
    function GetSignedUrl(fileId: string, expires: Option<int>, sign: (string, string, int) -> Result<string, Failure>)
      : (r: Result<string, Failure>)
      ensures r == sign(bucket, fileId, ExpiryOf(expires))
    {
      sign(bucket, fileId, ExpiryOf(expires))
    }
  }

  // ---------------------------------------------------------------------
  // Properties
  // ---------------------------------------------------------------------

  /** The copy source a move sends names the moved key. */
  lemma MoveSourceNamesFile(bucketName: string, fileId: string)
    ensures CopiesFrom(bucketName, bucketName + "/" + fileId, fileId)
    ensures forall source :: CopiesFrom(bucketName, bucketName + "/" + fileId, source) ==> source == fileId
  {
    var copySource := bucketName + "/" + fileId;
    assert copySource[..|bucketName + "/"|] == bucketName + "/";
    assert copySource[|bucketName| + 1..] == fileId;
  }

  /** Moving an object onto its own key is refused at the copy and changes nothing. */
  lemma MoveOntoItselfFails(b: Bucket, bucketName: string, versioned: bool, fileId: string, now: int, faults: Faults)
    ensures var run := MoveRun(b, bucketName, versioned, fileId, fileId, now, faults);
      run.bucket == b && run.sent == [CopyObject(bucketName + "/" + fileId, fileId)] && run.result.Err?
  {
    MoveSourceNamesFile(bucketName, fileId);
  }

  /** Without faults, a move of a stored object to another key leaves the
      object under the new key only, stamped with the copy time, and returns
      the entry for the new key. */
  lemma MoveRelocates(b: Bucket, bucketName: string, versioned: bool, fileId: string, newPath: string,
                      now: int, faults: Faults)
    requires fileId in b && fileId != newPath
    requires forall c :: c in MoveSteps(bucketName, fileId, newPath) ==> faults(c).None?
    ensures var run := MoveRun(b, bucketName, versioned, fileId, newPath, now, faults);
      && run.sent == MoveSteps(bucketName, fileId, newPath)
      && run.bucket == (b - {fileId})[newPath := b[fileId].(lastModified := now)]
      && run.result == Ok(ParseFile(newPath, GetOutput(b[fileId].(lastModified := now)), now))
  {
    MoveSourceNamesFile(bucketName, fileId);
    assert MoveSteps(bucketName, fileId, newPath)[0] == CopyObject(bucketName + "/" + fileId, newPath);
    assert MoveSteps(bucketName, fileId, newPath)[1] == DeleteObject(fileId);
    assert MoveSteps(bucketName, fileId, newPath)[2] == GetObject(newPath);
    var copied := b[newPath := b[fileId].(lastModified := now)];
    assert copied - {fileId} == (b - {fileId})[newPath := b[fileId].(lastModified := now)];
  }

  /** A refused copy changes nothing and stops before the delete. */
  lemma FailedCopyChangesNothing(b: Bucket, bucketName: string, versioned: bool, fileId: string, newPath: string,
                                 now: int, faults: Faults)
    requires faults(CopyObject(bucketName + "/" + fileId, newPath)).Some?
    ensures var run := MoveRun(b, bucketName, versioned, fileId, newPath, now, faults);
      run.bucket == b && run.sent == [CopyObject(bucketName + "/" + fileId, newPath)] && run.result.Err?
  {
  }

  /** A refused delete after a good copy leaves the object under both keys. */
  lemma FailedDeleteKeepsBoth(b: Bucket, bucketName: string, versioned: bool, fileId: string, newPath: string,
                              now: int, faults: Faults)
    requires fileId in b && fileId != newPath
    requires faults(CopyObject(bucketName + "/" + fileId, newPath)).None?
    requires faults(DeleteObject(fileId)).Some?
    ensures var run := MoveRun(b, bucketName, versioned, fileId, newPath, now, faults);
      && fileId in run.bucket && newPath in run.bucket && run.result.Err?
      && run.sent == [CopyObject(bucketName + "/" + fileId, newPath), DeleteObject(fileId)]
  {
    MoveSourceNamesFile(bucketName, fileId);
  }

  /** Without faults, a new folder is an empty object at exactly that key,
      reported with size 0 and no MIME type. */
  lemma CreateFolderWritesEmptyObject(b: Bucket, path: string, now: int, faults: Faults)
    requires faults(PutObject(path, [])).None? && faults(GetObject(path)).None?
    ensures var run := CreateFolderRun(b, path, now, faults);
      && run.bucket == b[path := S3Object([], None, now)]
      && run.result == Ok(IFile(path, path, 0, None, false, At(now)))
  {
  }

  /** Without faults, an upload is stored under its key and its entry reports its length. */
  lemma PutFileStoresData(b: Bucket, path: string, data: seq<bv8>, now: int, faults: Faults)
    requires faults(Upload(path, data)).None? && faults(GetObject(path)).None?
    ensures var run := PutFileRun(b, path, data, now, faults);
      && run.bucket == b[path := S3Object(data, None, now)]
      && run.result.Ok? && run.result.value.size == |data| && run.result.value.path == path
  {
  }
}
