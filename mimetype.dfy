/**
  `getMimeType(fileName)`: the extension is the text after the last `.`
  (the whole name when there is none), looked up exactly and case-sensitively
  in a fixed table; an empty extension gives the folder MIME type and an
  unknown one `application/octet-stream`.
 */
module MimeType {
  import opened Wrappers
  import opened Js

  const FolderMime: string := "application/vnd.google-apps.folder"
  const DefaultMime: string := "application/octet-stream"

  /** The extension table: `mimeTypes[ext]` for the object's own entries.
      No key of the table is longer than five characters. */
  function Lookup(ext: string): (r: Option<string>)
    ensures r.Some? ==> r.value != "" && r.value != FolderMime && r.value != DefaultMime
    ensures r.Some? ==> |ext| <= 5
  {
    if |ext| > 5 then None
    else match ext
    case "pdf" => Some("application/pdf")
    case "doc" => Some("application/msword")
    case "docx" => Some("application/vnd.openxmlformats-officedocument.wordprocessingml.document")
    case "xls" => Some("application/vnd.ms-excel")
    case "xlsx" => Some("application/vnd.openxmlformats-officedocument.spreadsheetml.sheet")
    case "ppt" => Some("application/vnd.ms-powerpoint")
    case "pptx" => Some("application/vnd.openxmlformats-officedocument.presentationml.presentation")
    case "pps" => Some("application/vnd.ms-powerpoint")
    case "ppsx" => Some("application/vnd.openxmlformats-officedocument.presentationml.slideshow")
    case "odt" => Some("application/vnd.oasis.opendocument.text")
    case "ods" => Some("application/vnd.oasis.opendocument.spreadsheet")
    case "odp" => Some("application/vnd.oasis.opendocument.presentation")
    case "txt" => Some("text/plain")
    case "rtf" => Some("application/rtf")
    case "html" => Some("text/html")
    case "htm" => Some("text/html")
    case "mht" => Some("message/rfc822")
    case "mhtml" => Some("message/rfc822")
    case "csv" => Some("text/csv")
    case "jpg" => Some("image/jpeg")
    case "jpeg" => Some("image/jpeg")
    case "jpe" => Some("image/jpeg")
    case "png" => Some("image/png")
    case "gif" => Some("image/gif")
    case "bmp" => Some("image/bmp")
    case "tif" => Some("image/tiff")
    case "tiff" => Some("image/tiff")
    case "ico" => Some("image/x-icon")
    case "svg" => Some("image/svg+xml")
    case "svgz" => Some("image/svg+xml")
    case "zip" => Some("application/zip")
    case "rar" => Some("application/x-rar-compressed")
    case "exe" => Some("application/x-msdownload")
    case "msi" => Some("application/x-msdownload")
    case "cab" => Some("application/vnd.ms-cab-compressed")
    case "mp3" => Some("audio/mpeg")
    case "qt" => Some("video/quicktime")
    case "mov" => Some("video/quicktime")
    case "wmv" => Some("video/x-ms-wmv")
    case "mp4" => Some("video/mp4")
    case "ogg" => Some("application/ogg")
    case "ogv" => Some("video/ogg")
    case "oga" => Some("audio/ogg")
    case "webm" => Some("video/webm")
    case "flv" => Some("video/x-flv")
    case "avi" => Some("video/x-msvideo")
    case "mkv" => Some("video/x-matroska")
    case "3gp" => Some("video/3gpp")
    case "wav" => Some("audio/x-wav")
    case "mp4a" => Some("audio/mp4")
    case "m4a" => Some("audio/mp4")
    case _ => None
  }

  /** `fileName.split('.').pop()`. */
  function Extension(fileName: string): string {
    LastPiece(fileName, '.')
  }

  /** The lookup, with the table read as own entries only. */
  function GetMimeType(fileName: string): (r: string)
    ensures r != ""
    ensures r == FolderMime <==> Extension(fileName) == ""
    ensures Lookup(Extension(fileName)).Some? ==> r == Lookup(Extension(fileName)).value
    ensures Extension(fileName) != "" && Lookup(Extension(fileName)).None? ==> r == DefaultMime
  {
    var ext := Extension(fileName);
    if ext == "" then FolderMime
    else match Lookup(ext)
      case Some(mime) => mime
      case None => DefaultMime
  }

  // ---------------------------------------------------------------------
  // Properties
  // ---------------------------------------------------------------------

  /** The extension is what follows the last dot; a name without a dot is its own extension. */
  lemma ExtensionFollowsLastDot(fileName: string)
    ensures Extension(fileName) == fileName[LastIndexOf(fileName, '.') + 1..]
    ensures (forall k :: 0 <= k < |fileName| ==> fileName[k] != '.') ==> Extension(fileName) == fileName
    ensures forall k :: 0 <= k < |Extension(fileName)| ==> Extension(fileName)[k] != '.'
  {
    LastPieceAfterLastSeparator(fileName, '.');
  }

  /** The folder type comes back exactly for an empty name or one that ends in a dot. */
  lemma FolderMimeIffTrailingDot(fileName: string)
    ensures GetMimeType(fileName) == FolderMime <==> (fileName == "" || fileName[|fileName| - 1] == '.')
  {
    ExtensionFollowsLastDot(fileName);
  }

  /** A dot-free name is looked up whole, like an extension. */
  lemma DotFreeNameIsLookedUpWhole(fileName: string)
    requires forall k :: 0 <= k < |fileName| ==> fileName[k] != '.'
    ensures GetMimeType(fileName) == if fileName == "" then FolderMime
                                     else Lookup(fileName).GetOr(DefaultMime)
  {
    ExtensionFollowsLastDot(fileName);
  }

  /** Only the last extension counts: `stem.ext` has the type of `ext` whatever the stem is. */
  lemma {:induction false} LastExtensionDecides(stem: string, ext: string)
    requires forall k :: 0 <= k < |ext| ==> ext[k] != '.'
    ensures GetMimeType(stem + "." + ext) == GetMimeType(ext)
  {
    var name := stem + "." + ext;
    assert name == stem + ['.'] + ext;
    LastAfterSeparator(stem, '.', ext);
    SplitNoSeparator(ext, '.');
    ExtensionFollowsLastDot(ext);
  }

  lemma DotFreeExamples()
    ensures GetMimeType("pdf") == "application/pdf"
    ensures GetMimeType("README") == DefaultMime
  {
    DotFreeNameIsLookedUpWhole("pdf");
    DotFreeNameIsLookedUpWhole("README");
  }

  /** `stem.ext` looks up `ext`, checked on one concrete name. */
  lemma NamedExample(name: string, stem: string, ext: string, mime: string)
    requires name == stem + "." + ext
    requires forall k :: 0 <= k < |ext| ==> ext[k] != '.'
    requires ext != "" && Lookup(ext).GetOr(DefaultMime) == mime
    ensures GetMimeType(name) == mime
  {
    LastExtensionDecides(stem, ext);
    DotFreeNameIsLookedUpWhole(ext);
  }

  lemma TextExample()
    ensures GetMimeType("notes.txt") == "text/plain"
  {
    NamedExample("notes.txt", "notes", "txt", "text/plain");
  }

  /** Table entries: video, and the three JPEG spellings, which share one type. */
  lemma TableEntries()
    ensures Lookup("3gp") == Some("video/3gpp")
    ensures Lookup("jpg") == Some("image/jpeg")
    ensures Lookup("jpeg") == Some("image/jpeg")
    ensures Lookup("jpe") == Some("image/jpeg")
  {
  }

  /** The lookup is exact: case and double extensions are not folded. */
  lemma CaseSensitiveExample()
    ensures GetMimeType("photo.JPG") == DefaultMime
  {
    NamedExample("photo.JPG", "photo", "JPG", DefaultMime);
  }

  lemma DoubleExtensionExample()
    ensures GetMimeType("archive.tar.gz") == DefaultMime
  {
    NamedExample("archive.tar.gz", "archive.tar", "gz", DefaultMime);
  }

  lemma FolderExamples()
    ensures GetMimeType("") == FolderMime
    ensures GetMimeType("draft.") == FolderMime
  {
    FolderMimeIffTrailingDot("");
    FolderMimeIffTrailingDot("draft.");
  }

  // ---------------------------------------------------------------------
  // The lookup as written: the table is a plain object literal, so
  // `mimeTypes[ext]` also finds the members every object inherits.
  // ---------------------------------------------------------------------

  /** The names `Object.prototype` provides to every object literal. */
  const InheritedNames: set<string> := {
    "constructor", "__defineGetter__", "__defineSetter__", "hasOwnProperty",
    "__lookupGetter__", "__lookupSetter__", "isPrototypeOf", "propertyIsEnumerable",
    "toString", "valueOf", "__proto__", "toLocaleString"
  }

  /** What `mimeTypes[ext] || 'application/octet-stream'` yields: a string, or an
      inherited function or object, which is truthy and so is returned as is. */
  datatype LookupValue = MimeString(mime: string) | InheritedMember(name: string)

  function GetMimeTypeAsWritten(fileName: string): (r: LookupValue)
    ensures Extension(fileName) !in InheritedNames ==> r == MimeString(GetMimeType(fileName))
    ensures Extension(fileName) in InheritedNames ==> r == InheritedMember(Extension(fileName))
  {
    var ext := Extension(fileName);
    if ext == "" then MimeString(FolderMime)
    else if Lookup(ext).Some? then MimeString(Lookup(ext).value)
    else if ext in InheritedNames then InheritedMember(ext)
    else MimeString(DefaultMime)
  }

  /** `notes.toString` gets the inherited `toString` function instead of a MIME string. */
  lemma InheritedNameIsNotAMimeType()
    ensures GetMimeTypeAsWritten("notes.toString") == InheritedMember("toString")
    ensures GetMimeType("notes.toString") == DefaultMime
  {
    NotesToStringExtension();
    assert "toString" in InheritedNames;
  }

  lemma NotesToStringExtension()
    ensures Extension("notes.toString") == "toString"
  {
    assert "notes.toString" == "notes" + ['.'] + "toString";
    LastAfterSeparator("notes", '.', "toString");
    SplitNoSeparator("toString", '.');
  }
}
