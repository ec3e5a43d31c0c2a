/**
  `LocalStorage` (src/providers/localStorage.ts): files under a root
  directory. The filesystem is a map from full path to node held by the
  provider; `path.join` and `path.basename` are uninterpreted functions, and
  the listing of a directory is an oracle over the current filesystem.
  Every filesystem call is logged in order.
 */
module LocalStorage {
  import opened Wrappers
  import opened Js
  import opened StorageTypes
  import MimeType
  import BaseStorage

  /** Node's `path.join` and `path.basename`. */
  datatype PathOps = PathOps(join: (string, string) -> string, basename: string -> string)

  /** What `fs.stat` finds: a regular file with its bytes, or a directory
      with the size the filesystem reports for it. */
  datatype Node = FileNode(data: seq<bv8>, mtime: int) | DirNode(size: int, mtime: int)

  type FileSystem = map<string, Node>

  /** The filesystem calls, as made. */
  datatype FsCall =
    | Stat(path: string)
    | Mkdir(path: string)
    | Unlink(path: string)
    | WriteFile(path: string, data: seq<bv8>)
    | Rename(from: string, to: string)
    | Readdir(path: string)
    | OpenRead(path: string, range: Option<(Num, Num)>)

  /** `fs.readdir`: the child names of a directory, in the order the system lists them. */
  type Readdir = (FileSystem, string) -> Result<seq<string>, Failure>

  const NoEntry: Failure := Backend("ENOENT")
  const AlreadyExists: Failure := Backend("EEXIST")
  const IsADirectory: Failure := Backend("EISDIR")
  /** The size a new, empty directory reports. */
  const EmptyDirectorySize: int := 4096

  /** An open `fs.createReadStream` over the inclusive byte range, with the 206 headers. */
  datatype PartialStream = PartialStream(path: string, start: Num, end: Num, headers: Header206)

  /** `getFullPath`. */
  function FullPath(root: string, paths: PathOps, filePath: string): string {
    paths.join(root, filePath)
  }

  /** The entry `getFileOrFolder` builds from the stats of `fullPath`. */
  function EntryOf(paths: PathOps, fullPath: string, filePath: string, node: Node): (f: IFile)
    ensures f.name == paths.basename(fullPath) && f.path == filePath
    ensures f.isFolder <==> node.DirNode?
    ensures node.FileNode? ==> f.mimeType == Some(MimeType.GetMimeType(fullPath)) && f.size == |node.data|
    ensures node.DirNode? ==> f.mimeType.None? && f.size == node.size
    ensures f.modifiedAt == At(node.mtime)
  {
    match node
    case FileNode(data, mtime) =>
      IFile(paths.basename(fullPath), filePath, |data|, Some(MimeType.GetMimeType(fullPath)), false, At(mtime))
    case DirNode(size, mtime) =>
      IFile(paths.basename(fullPath), filePath, size, None, true, At(mtime))
  }

  /** A file's MIME type is the one the lookup as written yields, except for
      the inherited names, where the program would store that member. */
  lemma EntryMimeAsWritten(paths: PathOps, fullPath: string, filePath: string, node: Node)
    requires node.FileNode?
    ensures MimeType.Extension(fullPath) !in MimeType.InheritedNames ==>
      MimeType.GetMimeTypeAsWritten(fullPath) == MimeType.MimeString(EntryOf(paths, fullPath, filePath, node).mimeType.value)
    ensures MimeType.Extension(fullPath) in MimeType.InheritedNames ==>
      MimeType.GetMimeTypeAsWritten(fullPath).InheritedMember?
  {
  }

  /** `getFileOrFolder(filePath)` against a filesystem. */
  function Stated(fs: FileSystem, root: string, paths: PathOps, filePath: string): (r: Result<IFile, Failure>)
    ensures r.Ok? <==> FullPath(root, paths, filePath) in fs
    ensures r.Ok? ==> r.value == EntryOf(paths, FullPath(root, paths, filePath), filePath, fs[FullPath(root, paths, filePath)])
    ensures r.Err? ==> r.error == NoEntry
  {
    var full := FullPath(root, paths, filePath);
    if full in fs then Ok(EntryOf(paths, full, filePath, fs[full])) else Err(NoEntry)
  }

  // ---------------------------------------------------------------------
  // The filesystem, one call at a time
  // ---------------------------------------------------------------------

  datatype Step = Step(fs: FileSystem, result: Result<(), Failure>)

  /** `fs.mkdir`: refused when the path exists. Parents are not checked. */
  function MkdirStep(fs: FileSystem, path: string, now: int): (s: Step)
    ensures path in fs ==> s == Step(fs, Err(AlreadyExists))
    ensures path !in fs ==> s == Step(fs[path := DirNode(EmptyDirectorySize, now)], Ok(()))
  {
    if path in fs then Step(fs, Err(AlreadyExists)) else Step(fs[path := DirNode(EmptyDirectorySize, now)], Ok(()))
  }

  /** `fs.writeFile`: creates or replaces a file, refused on a directory. */
  function WriteStep(fs: FileSystem, path: string, data: seq<bv8>, now: int): (s: Step)
    ensures path in fs && fs[path].DirNode? ==> s == Step(fs, Err(IsADirectory))
    ensures !(path in fs && fs[path].DirNode?) ==> s == Step(fs[path := FileNode(data, now)], Ok(()))
  {
    if path in fs && fs[path].DirNode? then Step(fs, Err(IsADirectory)) else Step(fs[path := FileNode(data, now)], Ok(()))
  }

  /** `fs.unlink`: removes a file; a directory or a missing path is refused. */
  function UnlinkStep(fs: FileSystem, path: string): (s: Step)
    ensures path !in fs ==> s == Step(fs, Err(NoEntry))
    ensures path in fs && fs[path].DirNode? ==> s == Step(fs, Err(IsADirectory))
    ensures path in fs && fs[path].FileNode? ==> s == Step(fs - {path}, Ok(()))
  {
    if path !in fs then Step(fs, Err(NoEntry))
    else if fs[path].DirNode? then Step(fs, Err(IsADirectory))
    else Step(fs - {path}, Ok(()))
  }

  /** `fs.rename`: the node leaves `from` and replaces whatever was at `to`. */
  function RenameStep(fs: FileSystem, from: string, to: string): (s: Step)
    ensures from !in fs ==> s == Step(fs, Err(NoEntry))
    ensures from in fs ==> s == Step((fs - {from})[to := fs[from]], Ok(()))
  {
    if from !in fs then Step(fs, Err(NoEntry)) else Step((fs - {from})[to := fs[from]], Ok(()))
  }

  // ---------------------------------------------------------------------
  // Operations as runs over the filesystem
  // ---------------------------------------------------------------------

  /** The filesystem after an operation, the calls it made in order, and its result. */
  datatype Run<T> = Run(fs: FileSystem, sent: seq<FsCall>, result: Result<T, Failure>)

  /** `createFolder` as written: the directory is made at the rooted path,
      and then that rooted path is handed to `getFileOrFolder`, which roots it
      again. */
  function CreateFolderAsWrittenRun(fs: FileSystem, root: string, paths: PathOps, filePath: string, now: int)
    : (run: Run<IFile>)
    ensures var newPath := FullPath(root, paths, filePath);
      && (run.sent == [Mkdir(newPath)] || run.sent == [Mkdir(newPath), Stat(FullPath(root, paths, newPath))])
      && (run.result.Ok? ==> run.result.value.path == newPath && FullPath(root, paths, newPath) in run.fs)
  {
    var newPath := FullPath(root, paths, filePath);
    var made := MkdirStep(fs, newPath, now);
    if made.result.Err? then Run(made.fs, [Mkdir(newPath)], Err(made.result.error))
    else Run(made.fs, [Mkdir(newPath), Stat(FullPath(root, paths, newPath))], Stated(made.fs, root, paths, newPath))
  }

  /** `createFolder` as intended: the entry of the directory just made. */
  function CreateFolderRun(fs: FileSystem, root: string, paths: PathOps, filePath: string, now: int)
    : (run: Run<IFile>)
    ensures var full := FullPath(root, paths, filePath);
      && (full in fs ==> run == Run(fs, [Mkdir(full)], Err(AlreadyExists)))
      && (full !in fs ==>
            && run.fs == fs[full := DirNode(EmptyDirectorySize, now)]
            && run.sent == [Mkdir(full), Stat(full)]
            && run.result == Ok(IFile(paths.basename(full), filePath, EmptyDirectorySize, None, true, At(now))))
  {
    var newPath := FullPath(root, paths, filePath);
    var made := MkdirStep(fs, newPath, now);
    if made.result.Err? then Run(made.fs, [Mkdir(newPath)], Err(made.result.error))
    else Run(made.fs, [Mkdir(newPath), Stat(newPath)], Stated(made.fs, root, paths, filePath))
  }

  /** `deleteFileOrFolder`: `true` whenever the unlink succeeds. */
  function DeleteRun(fs: FileSystem, root: string, paths: PathOps, fileId: string): (run: Run<bool>)
    ensures run.sent == [Unlink(FullPath(root, paths, fileId))]
    ensures run.result.Ok? ==> run.result.value
  {
    var full := FullPath(root, paths, fileId);
    var gone := UnlinkStep(fs, full);
    Run(gone.fs, [Unlink(full)], if gone.result.Err? then Err(gone.result.error) else Ok(true))
  }

  /** `putFile`: write, then the entry at the caller's path. */
  function PutFileRun(fs: FileSystem, root: string, paths: PathOps, path: string, data: seq<bv8>, now: int)
    : (run: Run<IFile>)
    ensures var full := FullPath(root, paths, path);
      run.sent == [WriteFile(full, data)] || run.sent == [WriteFile(full, data), Stat(full)]
  {
    var full := FullPath(root, paths, path);
    var written := WriteStep(fs, full, data, now);
    if written.result.Err? then Run(written.fs, [WriteFile(full, data)], Err(written.result.error))
    else Run(written.fs, [WriteFile(full, data), Stat(full)], Stated(written.fs, root, paths, path))
  }

  /** `renameFileOrFolder` (and `moveFileOrFolder`): rename, then the entry at the new path. */
  function RenameRun(fs: FileSystem, root: string, paths: PathOps, fileId: string, newName: string)
    : (run: Run<IFile>)
    ensures var from := FullPath(root, paths, fileId);
      var to := FullPath(root, paths, newName);
      run.sent == [Rename(from, to)] || run.sent == [Rename(from, to), Stat(to)]
  {
    var from := FullPath(root, paths, fileId);
    var to := FullPath(root, paths, newName);
    var moved := RenameStep(fs, from, to);
    if moved.result.Err? then Run(moved.fs, [Rename(from, to)], Err(moved.result.error))
    else Run(moved.fs, [Rename(from, to), Stat(to)], Stated(moved.fs, root, paths, newName))
  }

  /** `readFile`: a folder is refused before any stream is opened. */
  function ReadFileRun(fs: FileSystem, root: string, paths: PathOps, fileId: string): (run: Run<seq<bv8>>)
    ensures run.fs == fs
    ensures var full := FullPath(root, paths, fileId);
      && (full in fs && fs[full].DirNode? ==> run.sent == [Stat(full)] && run.result == Err(Thrown("Cannot read a folder")))
      && (full in fs && fs[full].FileNode? ==> run.sent == [Stat(full), OpenRead(full, None)] && run.result == Ok(fs[full].data))
      && (full !in fs ==> run.sent == [Stat(full)] && run.result == Err(NoEntry))
  {
    var full := FullPath(root, paths, fileId);
    match Stated(fs, root, paths, fileId)
    case Err(e) => Run(fs, [Stat(full)], Err(e))
    case Ok(file) =>
      if file.isFolder then Run(fs, [Stat(full)], Err(Thrown("Cannot read a folder")))
      else Run(fs, [Stat(full), OpenRead(full, None)], Ok(fs[full].data))
  }

  /** `streamFile`: a folder is refused; a file is opened over exactly the
      inclusive range `buildRange` computes for its entry. */
  function StreamFileRun(fs: FileSystem, root: string, paths: PathOps, fileId: string, range: string)
    : (run: Run<PartialStream>)
    ensures run.fs == fs
    ensures var full := FullPath(root, paths, fileId);
      && (full in fs && fs[full].DirNode? ==> run.sent == [Stat(full)] && run.result == Err(Thrown("Cannot stream a folder")))
      && (full !in fs ==> run.sent == [Stat(full)] && run.result == Err(NoEntry))
  {
    var full := FullPath(root, paths, fileId);
    match Stated(fs, root, paths, fileId)
    case Err(e) => Run(fs, [Stat(full)], Err(e))
    case Ok(file) =>
      if file.isFolder then Run(fs, [Stat(full)], Err(Thrown("Cannot stream a folder")))
      else
        var br := BaseStorage.BuildRange(range, file);
        Run(fs, [Stat(full), OpenRead(full, Some((br.start, br.end)))], Ok(PartialStream(full, br.start, br.end, br.headers)))
  }

  /** The caller-side path of the `i`th child */
  function ChildPath(paths: PathOps, folderId: string, name: string): string {
    paths.join(folderId, name)
  }

  /** One stat per child, in listing order. */
  function ChildStats(root: string, paths: PathOps, folderId: string, names: seq<string>): (calls: seq<FsCall>)
    ensures |calls| == |names|
    ensures forall i :: 0 <= i < |names| ==> calls[i] == Stat(FullPath(root, paths, ChildPath(paths, folderId, names[i])))
  {
    seq(|names|, i requires 0 <= i < |names| => Stat(FullPath(root, paths, ChildPath(paths, folderId, names[i]))))
  }

  /** `Promise.all` over the children's entries: all of them in listing
      order, or the first failure. */
  function StatChildren(fs: FileSystem, root: string, paths: PathOps, folderId: string, names: seq<string>)
    : (r: Result<seq<IFile>, Failure>)
    ensures r.Ok? ==> |r.value| == |names|
    ensures r.Err? ==> r.error == NoEntry
    decreases |names|
  {
    if names == [] then Ok([])
    else
      match StatChildren(fs, root, paths, folderId, names[..|names| - 1])
      case Err(e) => Err(e)
      case Ok(files) =>
        match Stated(fs, root, paths, ChildPath(paths, folderId, names[|names| - 1]))
        case Err(e) => Err(e)
        case Ok(f) => Ok(files + [f])
  }

  /** `readFolder`: a file is refused; a folder is listed and every child stat'd. */
  function ReadFolderRun(fs: FileSystem, root: string, paths: PathOps, folderId: string, readdir: Readdir)
    : (run: Run<seq<IFile>>)
    ensures run.fs == fs
    ensures var full := FullPath(root, paths, folderId);
      && (full in fs && fs[full].FileNode? ==> run.sent == [Stat(full)] && run.result == Err(Thrown("Cannot read a file")))
      && (full !in fs ==> run.sent == [Stat(full)] && run.result == Err(NoEntry))
      && (full in fs && fs[full].DirNode? ==> |run.sent| >= 2 && run.sent[..2] == [Stat(full), Readdir(full)])
    ensures var full := FullPath(root, paths, folderId); var listed := readdir(fs, full);
      full in fs && fs[full].DirNode? ==>
        && (listed.Err? ==> run.sent == [Stat(full), Readdir(full)] && run.result == Err(listed.error))
        && (listed.Ok? ==> run.sent == [Stat(full), Readdir(full)] + ChildStats(root, paths, folderId, listed.value)
                           && run.result == StatChildren(fs, root, paths, folderId, listed.value))
  {
    var full := FullPath(root, paths, folderId);
    match Stated(fs, root, paths, folderId)
    case Err(e) => Run(fs, [Stat(full)], Err(e))
    case Ok(file) =>
      if !file.isFolder then Run(fs, [Stat(full)], Err(Thrown("Cannot read a file")))
      else ListingRun(fs, root, paths, folderId, readdir)
  }

  /** The folder case of `readFolder`: the stat, the `readdir`, then the children. */
  function ListingRun(fs: FileSystem, root: string, paths: PathOps, folderId: string, readdir: Readdir)
    : (run: Run<seq<IFile>>)
    ensures run.fs == fs && |run.sent| >= 2
    ensures run.sent[..2] == [Stat(FullPath(root, paths, folderId)), Readdir(FullPath(root, paths, folderId))]
    ensures var full := FullPath(root, paths, folderId); var listed := readdir(fs, full);
      && (listed.Err? ==> run.sent == [Stat(full), Readdir(full)] && run.result == Err(listed.error))
      && (listed.Ok? ==> run.sent == [Stat(full), Readdir(full)] + ChildStats(root, paths, folderId, listed.value)
                         && run.result == StatChildren(fs, root, paths, folderId, listed.value))
  {
    var full := FullPath(root, paths, folderId);
    match readdir(fs, full)
    case Err(e) => Run(fs, [Stat(full), Readdir(full)], Err(e))
    case Ok(names) =>
      Run(fs, [Stat(full), Readdir(full)] + ChildStats(root, paths, folderId, names),
          StatChildren(fs, root, paths, folderId, names))
  }

  // ---------------------------------------------------------------------
  // The provider
  // ---------------------------------------------------------------------

  class LocalStorage {
    const root: string
    const paths: PathOps
    var fs: FileSystem
    /** Every filesystem call made so far. */
    ghost var calls: seq<FsCall>

    constructor(options: LocalOptions, paths: PathOps, fs: FileSystem)
      ensures root == options.root && this.paths == paths && this.fs == fs && calls == []
    {
      root := options.root;
      this.paths := paths;
      this.fs := fs;
      calls := [];
    }

    /** `getFullPath`. */
    function GetFullPath(filePath: string): (full: string)
      ensures full == FullPath(root, paths, filePath)
    {
      paths.join(root, filePath)
    }

    method GetFileOrFolder(filePath: string) returns (r: Result<IFile, Failure>)
      modifies this
      ensures fs == old(fs) && calls == old(calls) + [Stat(GetFullPath(filePath))]
      ensures r == Stated(fs, root, paths, filePath)
    {
      var fullPath := GetFullPath(filePath);
      calls := calls + [Stat(fullPath)];
      if fullPath !in fs {
        return Err(NoEntry);
      }
      r := Ok(EntryOf(paths, fullPath, filePath, fs[fullPath]));
    }

    method MkdirCall(path: string, now: int) returns (r: Result<(), Failure>)
      modifies this
      ensures fs == MkdirStep(old(fs), path, now).fs && r == MkdirStep(old(fs), path, now).result
      ensures calls == old(calls) + [Mkdir(path)]
    {
      var step := MkdirStep(fs, path, now);
      fs, r := step.fs, step.result;
      calls := calls + [Mkdir(path)];
    }

    method WriteFileCall(path: string, data: seq<bv8>, now: int) returns (r: Result<(), Failure>)
      modifies this
      ensures fs == WriteStep(old(fs), path, data, now).fs && r == WriteStep(old(fs), path, data, now).result
      ensures calls == old(calls) + [WriteFile(path, data)]
    {
      var step := WriteStep(fs, path, data, now);
      fs, r := step.fs, step.result;
      calls := calls + [WriteFile(path, data)];
    }

    method UnlinkCall(path: string) returns (r: Result<(), Failure>)
      modifies this
      ensures fs == UnlinkStep(old(fs), path).fs && r == UnlinkStep(old(fs), path).result
      ensures calls == old(calls) + [Unlink(path)]
    {
      var step := UnlinkStep(fs, path);
      fs, r := step.fs, step.result;
      calls := calls + [Unlink(path)];
    }

    method RenameCall(from: string, to: string) returns (r: Result<(), Failure>)
      modifies this
      ensures fs == RenameStep(old(fs), from, to).fs && r == RenameStep(old(fs), from, to).result
      ensures calls == old(calls) + [Rename(from, to)]
    {
      var step := RenameStep(fs, from, to);
      fs, r := step.fs, step.result;
      calls := calls + [Rename(from, to)];
    }

    /** `createFolder` as written: the rooted path is stat'd after rooting it a second time. */
    method CreateFolderAsWritten(filePath: string, now: int) returns (r: Result<IFile, Failure>)
      modifies this
      ensures var run := CreateFolderAsWrittenRun(old(fs), root, paths, filePath, now);
        fs == run.fs && calls == old(calls) + run.sent && r == run.result
    {
      var newPath := GetFullPath(filePath);
      var made := MkdirCall(newPath, now);
      if made.Err? {
        return Err(made.error);
      }
      r := GetFileOrFolder(newPath);
    }

    /** `createFolder` with the path rooted once. */
    method CreateFolder(filePath: string, now: int) returns (r: Result<IFile, Failure>)
      modifies this
      ensures var run := CreateFolderRun(old(fs), root, paths, filePath, now);
        fs == run.fs && calls == old(calls) + run.sent && r == run.result
    {
      var made := MkdirCall(GetFullPath(filePath), now);
      if made.Err? {
        return Err(made.error);
      }
      r := GetFileOrFolder(filePath);
    }

    method DeleteFileOrFolder(fileId: string) returns (r: Result<bool, Failure>)
      modifies this
      ensures var run := DeleteRun(old(fs), root, paths, fileId);
        fs == run.fs && calls == old(calls) + run.sent && r == run.result
    {
      var gone := UnlinkCall(GetFullPath(fileId));
      if gone.Err? {
        return Err(gone.error);
      }
      r := Ok(true);
    }

    method PutFile(path: string, data: seq<bv8>, now: int) returns (r: Result<IFile, Failure>)
      modifies this
      ensures var run := PutFileRun(old(fs), root, paths, path, data, now);
        fs == run.fs && calls == old(calls) + run.sent && r == run.result
    {
      var written := WriteFileCall(GetFullPath(path), data, now);
      if written.Err? {
        return Err(written.error);
      }
      r := GetFileOrFolder(path);
    }

    method RenameFileOrFolder(fileId: string, newName: string) returns (r: Result<IFile, Failure>)
      modifies this
      ensures var run := RenameRun(old(fs), root, paths, fileId, newName);
        fs == run.fs && calls == old(calls) + run.sent && r == run.result
    {
      var moved := RenameCall(GetFullPath(fileId), GetFullPath(newName));
      if moved.Err? {
        return Err(moved.error);
      }
      r := GetFileOrFolder(newName);
    }

    method MoveFileOrFolder(fileId: string, newPath: string) returns (r: Result<IFile, Failure>)
      modifies this
      ensures var run := RenameRun(old(fs), root, paths, fileId, newPath);
        fs == run.fs && calls == old(calls) + run.sent && r == run.result
    {
      r := RenameFileOrFolder(fileId, newPath);
    }

    method ReadFile(fileId: string) returns (r: Result<seq<bv8>, Failure>)
      modifies this
      ensures var run := ReadFileRun(old(fs), root, paths, fileId);
        fs == run.fs && calls == old(calls) + run.sent && r == run.result
    {
      var file := GetFileOrFolder(fileId);
      if file.Err? {
        return Err(file.error);
      }
      if file.value.isFolder {
        return Err(Thrown("Cannot read a folder"));
      }
      var fullPath := GetFullPath(fileId);
      calls := calls + [OpenRead(fullPath, None)];
      r := Ok(fs[fullPath].data);
    }

    method StreamFile(fileId: string, range: string) returns (r: Result<PartialStream, Failure>)
      modifies this
      ensures var run := StreamFileRun(old(fs), root, paths, fileId, range);
        fs == run.fs && calls == old(calls) + run.sent && r == run.result
    {
      var file := GetFileOrFolder(fileId);
      if file.Err? {
        return Err(file.error);
      }
      if file.value.isFolder {
        return Err(Thrown("Cannot stream a folder"));
      }
      var stream := OpenRange(GetFullPath(fileId), file.value, range);
      r := Ok(stream);
    }

    /** `fs.createReadStream(fullPath, { start, end })` over the offsets
        `buildRange` computes for the entry, with its headers. */
    method OpenRange(fullPath: string, file: IFile, range: string) returns (stream: PartialStream)
      modifies this
      ensures var br := BaseStorage.BuildRange(range, file);
        && fs == old(fs) && calls == old(calls) + [OpenRead(fullPath, Some((br.start, br.end)))]
        && stream == PartialStream(fullPath, br.start, br.end, br.headers)
    {
      var br := BaseStorage.BuildRange(range, file);
      calls := calls + [OpenRead(fullPath, Some((br.start, br.end)))];
      stream := PartialStream(fullPath, br.start, br.end, br.headers);
    }

    /** `readFolder`: a file is refused; a folder is listed and every child stat'd. */
    method ReadFolder(folderId: string, readdir: Readdir) returns (r: Result<seq<IFile>, Failure>)
      modifies this
      ensures var run := ReadFolderRun(old(fs), root, paths, folderId, readdir);
        fs == run.fs && calls == old(calls) + run.sent && r == run.result
    {
      var fullPath := GetFullPath(folderId);
      var folder := GetFileOrFolder(folderId);
      if folder.Err? {
        assert fullPath !in fs;
        return Err(folder.error);
      }
      if !folder.value.isFolder {
        assert fs[fullPath].FileNode?;
        return Err(Thrown("Cannot read a file"));
      }
      assert fs[fullPath].DirNode?;
      r := ListFolder(folderId, fullPath, readdir);
    }

    /** The listing of a folder already stat'd: `readdir`, then every child stat'd. */
    method ListFolder(folderId: string, fullPath: string, readdir: Readdir) returns (r: Result<seq<IFile>, Failure>)
      requires fullPath == FullPath(root, paths, folderId)
      modifies this
      ensures fs == old(fs)
      ensures var listed := readdir(fs, fullPath);
        && (listed.Err? ==> calls == old(calls) + [Readdir(fullPath)] && r == Err(listed.error))
        && (listed.Ok? ==> calls == old(calls) + [Readdir(fullPath)] + ChildStats(root, paths, folderId, listed.value)
                           && r == StatChildren(fs, root, paths, folderId, listed.value))
    {
      calls := calls + [Readdir(fullPath)];
      var listed := readdir(fs, fullPath);
      if listed.Err? {
        return Err(listed.error);
      }
      r := StatEachChild(folderId, listed.value);
    }

    /** The entries of the children, stat'd one after another, every one of
        them, kept in listing order; the first failure wins. */
    method StatEachChild(folderId: string, names: seq<string>) returns (entries: Result<seq<IFile>, Failure>)
      modifies this
      ensures fs == old(fs) && calls == old(calls) + ChildStats(root, paths, folderId, names)
      ensures entries == StatChildren(fs, root, paths, folderId, names)
    {
      entries := Ok([]);
      var i := 0;
      while i < |names|
        invariant 0 <= i <= |names|
        invariant fs == old(fs)
        invariant calls == old(calls) + ChildStats(root, paths, folderId, names[..i])
        invariant entries == StatChildren(fs, root, paths, folderId, names[..i])
      {
        var entry := GetFileOrFolder(ChildPath(paths, folderId, names[i]));
        StatChildrenStep(fs, root, paths, folderId, names, i);
        if entries.Ok? {
          entries := if entry.Err? then Err(entry.error) else Ok(entries.value + [entry.value]);
        }
        i := i + 1;
      }
      assert names[..i] == names;
    }

    /** `getSignedUrl`: local storage has no signed URLs, whatever the argument. */
    function GetSignedUrl(fileId: string): (r: Result<string, Failure>)
      ensures r.Err? && r.error == Thrown("Cannot get signed url for " + fileId + " in local storage")
    {
      Err(Thrown("Cannot get signed url for " + fileId + " in local storage"))
    }
  }

  // ---------------------------------------------------------------------
  // Properties
  // ---------------------------------------------------------------------

  /** A file is opened over exactly the offsets `buildRange` computes for its
      entry, and those offsets and headers are what is returned. */
  lemma StreamOpensBuiltRange(fs: FileSystem, root: string, paths: PathOps, fileId: string, range: string)
    requires FullPath(root, paths, fileId) in fs && fs[FullPath(root, paths, fileId)].FileNode?
    ensures var full := FullPath(root, paths, fileId);
      var run := StreamFileRun(fs, root, paths, fileId, range);
      var br := BaseStorage.BuildRange(range, EntryOf(paths, full, fileId, fs[full]));
      && run.sent == [Stat(full), OpenRead(full, Some((br.start, br.end)))]
      && run.result == Ok(PartialStream(full, br.start, br.end, br.headers))
  {
  }

  /** One more child: its stat is appended to the calls, and its entry
      to the listing unless an earlier child already failed. */
  lemma StatChildrenStep(fs: FileSystem, root: string, paths: PathOps, folderId: string, names: seq<string>, i: nat)
    requires i < |names|
    ensures ChildStats(root, paths, folderId, names[..i + 1])
         == ChildStats(root, paths, folderId, names[..i]) + [Stat(FullPath(root, paths, ChildPath(paths, folderId, names[i])))]
    ensures var before := StatChildren(fs, root, paths, folderId, names[..i]);
      var entry := Stated(fs, root, paths, ChildPath(paths, folderId, names[i]));
      StatChildren(fs, root, paths, folderId, names[..i + 1])
        == if before.Err? then before else if entry.Err? then Err(entry.error) else Ok(before.value + [entry.value])
  {
    assert names[..i + 1][..i] == names[..i];
    assert names[..i + 1][i] == names[i];
  }

  /** A successful listing has one entry per child, in listing order, each
      the entry of the child's path joined under the folder. */
  lemma {:induction false} ListedChildren(fs: FileSystem, root: string, paths: PathOps, folderId: string, names: seq<string>)
    requires StatChildren(fs, root, paths, folderId, names).Ok?
    ensures var files := StatChildren(fs, root, paths, folderId, names).value;
      && |files| == |names|
      && forall i :: 0 <= i < |names| ==>
           && FullPath(root, paths, ChildPath(paths, folderId, names[i])) in fs
           && files[i] == Stated(fs, root, paths, ChildPath(paths, folderId, names[i])).value
           && files[i].path == ChildPath(paths, folderId, names[i])
    decreases |names|
  {
    if names != [] {
      var init := names[..|names| - 1];
      ListedChildren(fs, root, paths, folderId, init);
      var files := StatChildren(fs, root, paths, folderId, init).value;
      var last := Stated(fs, root, paths, ChildPath(paths, folderId, names[|names| - 1]));
      assert StatChildren(fs, root, paths, folderId, names) == Ok(files + [last.value]);
      forall i | 0 <= i < |init|
        ensures names[i] == init[i] && (files + [last.value])[i] == files[i]
      {
      }
    }
  }

  /** The listing fails exactly when some child cannot be stat'd. */
  lemma {:induction false} ListingFailsIffChildMissing(fs: FileSystem, root: string, paths: PathOps, folderId: string,
                                                      names: seq<string>)
    ensures StatChildren(fs, root, paths, folderId, names).Err? <==>
      exists i :: 0 <= i < |names| && FullPath(root, paths, ChildPath(paths, folderId, names[i])) !in fs
    decreases |names|
  {
    if names != [] {
      var init := names[..|names| - 1];
      ListingFailsIffChildMissing(fs, root, paths, folderId, init);
      if exists i :: 0 <= i < |init| && FullPath(root, paths, ChildPath(paths, folderId, init[i])) !in fs {
        var i :| 0 <= i < |init| && FullPath(root, paths, ChildPath(paths, folderId, init[i])) !in fs;
        assert names[i] == init[i];
      }
      if exists i :: 0 <= i < |names| && FullPath(root, paths, ChildPath(paths, folderId, names[i])) !in fs {
        var i :| 0 <= i < |names| && FullPath(root, paths, ChildPath(paths, folderId, names[i])) !in fs;
        if i < |init| {
          assert names[i] == init[i];
        }
      }
    }
  }

  /** Written data is reported back: the entry at the caller's path is a file of that length. */
  lemma PutFileReportsData(fs: FileSystem, root: string, paths: PathOps, path: string, data: seq<bv8>, now: int)
    requires !(FullPath(root, paths, path) in fs && fs[FullPath(root, paths, path)].DirNode?)
    ensures var run := PutFileRun(fs, root, paths, path, data, now);
      && run.fs == fs[FullPath(root, paths, path) := FileNode(data, now)]
      && run.result.Ok?
      && run.result.value.path == path && run.result.value.size == |data| && !run.result.value.isFolder
      && run.result.value.mimeType == Some(MimeType.GetMimeType(FullPath(root, paths, path)))
  {
  }

  /** A rename moves the node and reports it at the caller's new path. */
  lemma RenameReportsNewPath(fs: FileSystem, root: string, paths: PathOps, fileId: string, newName: string)
    requires FullPath(root, paths, fileId) in fs
    ensures var run := RenameRun(fs, root, paths, fileId, newName);
      var to := FullPath(root, paths, newName);
      && run.fs == (fs - {FullPath(root, paths, fileId)})[to := fs[FullPath(root, paths, fileId)]]
      && run.result == Ok(EntryOf(paths, to, newName, fs[FullPath(root, paths, fileId)]))
  {
  }

  /** The plain join `a + "/" + b`, which is what `path.join` gives for
      relative segments without `.`, `..` or repeated separators. */
  function SimpleJoin(a: string, b: string): string {
    a + "/" + b
  }

  function LastSegment(s: string): string {
    Js.Last(Js.Split(s, '/'))
  }

  /** Under root `store`, `createFolder("docs")` makes `store/docs` but then
      stats `store/store/docs`, which does not exist: the folder is created
      and the call still fails. The intended reading stats `store/docs`. */
  lemma CreateFolderAsWrittenMissesNewFolder()
    ensures var paths := PathOps(SimpleJoin, LastSegment);
      var run := CreateFolderAsWrittenRun(map[], "store", paths, "docs", 0);
      && run.fs == map["store/docs" := DirNode(EmptyDirectorySize, 0)]
      && run.sent == [Mkdir("store/docs"), Stat("store/store/docs")]
      && run.result == Err(NoEntry)
  {
    var paths := PathOps(SimpleJoin, LastSegment);
    assert FullPath("store", paths, "docs") == "store/docs";
    assert FullPath("store", paths, "store/docs") == "store/store/docs";
    assert "store/store/docs" != "store/docs" by {
      assert |"store/store/docs"| != |"store/docs"|;
    }
  }

  /** With the path rooted once, the same call reports the new folder at `docs`. */
  lemma CreateFolderFindsNewFolder()
    ensures var paths := PathOps(SimpleJoin, LastSegment);
      var run := CreateFolderRun(map[], "store", paths, "docs", 0);
      && run.sent == [Mkdir("store/docs"), Stat("store/docs")]
      && run.result.Ok? && run.result.value.path == "docs" && run.result.value.isFolder
  {
    var paths := PathOps(SimpleJoin, LastSegment);
    assert FullPath("store", paths, "docs") == "store/docs";
  }
}
