/** The Google Drive commands of `cloud_client.rs`. The HTTP exchanges with the
    Drive API and the local file system are parameters: each method is given
    what the API answered and reports what it would have sent. */
module CloudClient {
  import opened Common
  import opened Text

  /** `CloudEntry`. */
  datatype CloudEntry = CloudEntry(
    name: string,
    isDir: bool,
    size: Option<nat>,
    lastModified: Option<string>,
    id: Option<string>)

  /** `GoogleDriveFile`, one element of the API's `files` array. */
  datatype DriveFile = DriveFile(
    id: string,
    name: string,
    mimeType: string,
    size: Option<string>,
    modifiedTime: Option<string>)

  const OnlyGoogle: string := "Only Google Drive is implemented at this time."
  const FolderMimeType: string := "application/vnd.google-apps.folder"

  /** The provider check every command makes before anything else. */
  predicate IsGoogle(provider: string)
  {
    provider == "google"
  }

  /** `folder_id` / `remote_parent_id`, defaulting to the Drive root. */
  function ParentOrRoot(parent: Option<string>): (r: string)
    ensures parent.Some? ==> r == parent.value
    ensures parent.None? ==> r == "root"
  {
    OptionOr(parent, "root")
  }

  const QueryTail: string := "' in parents and trashed = false"

  /** The Drive search query for the children of `parent` that are not in the trash. */
  function ListingQuery(parent: string): (q: string)
    ensures |q| == |parent| + 1 + |QueryTail|
    ensures q[0] == '\''
  {
    "'" + parent + QueryTail
  }

  /** Reads the parent identifier back out of a listing query. */
  function QueryParent(q: string): Option<string>
  {
    if |q| >= 1 + |QueryTail| && q[0] == '\'' && q[|q| - |QueryTail|..] == QueryTail
    then Some(q[1..|q| - |QueryTail|])
    else None
  }

  /** The query names exactly the parent it was built for. */
  lemma QueryNamesParent(parent: string)
    ensures QueryParent(ListingQuery(parent)) == Some(parent)
  {
    var q := ListingQuery(parent);
    assert q[|q| - |QueryTail|..] == QueryTail;
    assert q[1..|q| - |QueryTail|] == parent;
  }

  /** Different parents give different queries. */
  lemma QueryInjective(p1: string, p2: string)
    requires ListingQuery(p1) == ListingQuery(p2)
    ensures p1 == p2
  {
    QueryNamesParent(p1);
    QueryNamesParent(p2);
  }

  /** The body of the mapping loop in `list_cloud_directory`. */
  function MapDriveFile(f: DriveFile): (e: CloudEntry)
    ensures e.name == f.name && e.lastModified == f.modifiedTime && e.id == Some(f.id)
    ensures e.isDir <==> f.mimeType == FolderMimeType
    ensures e.size.Some? <==> f.size.Some? && ParseU64(f.size.value).Some?
    ensures e.size.Some? ==> e.size == ParseU64(f.size.value) && e.size.value < U64Limit
  {
    CloudEntry(
      name := f.name,
      isDir := f.mimeType == FolderMimeType,
      size := match f.size case Some(s) => ParseU64(s) case None => None,
      lastModified := f.modifiedTime,
      id := Some(f.id))
  }

  /** A size the API reports as the decimal form of a `u64` comes through unchanged. */
  lemma MappedSizeOfDecimal(f: DriveFile, n: nat)
    requires n < U64Limit && f.size == Some(DecimalString(n))
    ensures MapDriveFile(f).size == Some(n)
  {
    ParseOfDecimal(n);
  }

  /** `list_cloud_directory`. `reply` is the API's answer to the listing request;
      its payload is the decoded `files` array, or the decoding error. `query` is
      the search query of the request sent, if one was sent. */
  method ListCloudDirectory(provider: string, folderId: Option<string>, reply: HttpOutcome<Result<seq<DriveFile>>>)
    returns (r: Result<seq<CloudEntry>>, query: Option<string>)
    ensures !IsGoogle(provider) ==> r == Err(OnlyGoogle) && query == None
    ensures IsGoogle(provider) ==> query == Some(ListingQuery(ParentOrRoot(folderId)))
    ensures IsGoogle(provider) && reply.SendFailed? ==> r == Err("Network request failed: " + reply.reason)
    ensures IsGoogle(provider) && reply.NotSuccess? ==> r == Err("Google Drive API Error: " + reply.body)
    ensures IsGoogle(provider) && reply.Success? && reply.payload.Err? ==>
      r == Err("Failed to parse Google Drive response: " + reply.payload.error)
    ensures r.Ok? <==> IsGoogle(provider) && reply.Success? && reply.payload.Ok?
    ensures r.Ok? ==>
      && |r.value| == |reply.payload.value|
      && forall k :: 0 <= k < |r.value| ==> r.value[k] == MapDriveFile(reply.payload.value[k])
  {
    if !IsGoogle(provider) {
      return Err(OnlyGoogle), None;
    }
    var parentId := ParentOrRoot(folderId);
    query := Some(ListingQuery(parentId));
    match reply {
      case SendFailed(e) =>
        return Err("Network request failed: " + e), query;
      case NotSuccess(body) =>
        return Err("Google Drive API Error: " + body), query;
      case Success(decoded) =>
        if decoded.Err? {
          return Err("Failed to parse Google Drive response: " + decoded.error), query;
        }
        var files := decoded.value;
        var entries := [];
        var i := 0;
        while i < |files|
          invariant 0 <= i <= |files|
          invariant |entries| == i
          invariant forall k :: 0 <= k < i ==> entries[k] == MapDriveFile(files[k])
        {
          entries := entries + [MapDriveFile(files[i])];
          i := i + 1;
        }
        r := Ok(entries);
    }
  }

  /** One pass of the `while let Some(chunk) = res.chunk()` loop: a chunk that
      was written, a chunk that could not be written, or a failed read. Running
      out of steps is the end of the body. */
  datatype ChunkStep = Data(bytes: seq<byte>) | WriteFailed(reason: string) | ReadFailed(reason: string)

  /** The bytes written to the local file before the loop ends. */
  function Written(steps: seq<ChunkStep>): (w: seq<byte>)
    ensures steps != [] && steps[0].Data? ==> |steps[0].bytes| <= |w| && w[..|steps[0].bytes|] == steps[0].bytes
    ensures steps == [] || !steps[0].Data? ==> w == []
  {
    if steps == [] then []
    else match steps[0]
      case Data(b) => b + Written(steps[1..])
      case _ => []
  }

  /** The message of the failure that ends the loop, if one does. */
  function ChunkFailure(steps: seq<ChunkStep>): (r: Option<string>)
    ensures r.None? <==> AllData(steps)
  {
    if steps == [] then None
    else
      assert AllData(steps) <==> steps[0].Data? && AllData(steps[1..]) by {
        if steps[0].Data? && AllData(steps[1..]) {
          forall k | 0 <= k < |steps| ensures steps[k].Data? {
            if k > 0 { assert steps[k] == steps[1..][k - 1]; }
          }
        }
      }
      match steps[0]
      case Data(_) => ChunkFailure(steps[1..])
      case WriteFailed(e) => Some("Failed to write to local file: " + e)
      case ReadFailed(e) => Some("Error reading stream: " + e)
  }

  /** Nothing after a failure reaches the file. */
  lemma {:induction false} WrittenStopsAtFailure(steps: seq<ChunkStep>, more: seq<ChunkStep>)
    requires ChunkFailure(steps).Some?
    ensures Written(steps + more) == Written(steps)
    ensures ChunkFailure(steps + more) == ChunkFailure(steps)
  {
    assert (steps + more)[0] == steps[0];
    if steps[0].Data? {
      assert (steps + more)[1..] == steps[1..] + more;
      WrittenStopsAtFailure(steps[1..], more);
    }
  }

  /** Steps in which every chunk was read and written. */
  predicate AllData(steps: seq<ChunkStep>)
  {
    forall k :: 0 <= k < |steps| ==> steps[k].Data?
  }

  /** Without a failure, the file receives each chunk in order. */
  lemma {:induction false} WrittenAppends(steps: seq<ChunkStep>, more: seq<ChunkStep>)
    requires AllData(steps)
    ensures Written(steps + more) == Written(steps) + Written(more)
  {
    if steps == [] {
      assert steps + more == more;
    } else {
      var all := steps + more;
      assert all[0] == steps[0];
      assert all[1..] == steps[1..] + more;
      WrittenAppends(steps[1..], more);
    }
  }

  /** Without a failure in `steps`, the loop's outcome is decided by what follows. */
  lemma {:induction false} FailureAfterClean(steps: seq<ChunkStep>, more: seq<ChunkStep>)
    requires AllData(steps)
    ensures ChunkFailure(steps + more) == ChunkFailure(more)
  {
    if steps == [] {
      assert steps + more == more;
    } else {
      var all := steps + more;
      assert all[0] == steps[0];
      assert all[1..] == steps[1..] + more;
      FailureAfterClean(steps[1..], more);
    }
  }

  const DriveFilesEndpoint: string := "https://www.googleapis.com/drive/v3/files/"
  const MediaQuery: string := "?alt=media"

  /** The URL `download_cloud_file` fetches the contents of `fileId` from: the
      file's resource, asking for its contents rather than its metadata. The id
      can be read back from between the endpoint and the query. */
  function DownloadUrl(fileId: string): (u: string)
    ensures IsPrefix(DriveFilesEndpoint, u)
    ensures |u| == |DriveFilesEndpoint| + |fileId| + |MediaQuery|
    ensures u[|DriveFilesEndpoint|..|u| - |MediaQuery|] == fileId
    ensures u[|u| - |MediaQuery|..] == MediaQuery
  {
    DriveFilesEndpoint + fileId + MediaQuery
  }

  /** Different files are fetched from different URLs. */
  lemma DownloadUrlInjective(a: string, b: string)
    requires DownloadUrl(a) == DownloadUrl(b)
    ensures a == b
  {
    var u := DownloadUrl(a);
    assert a == u[|DriveFilesEndpoint|..|u| - |MediaQuery|];
  }

  /** `download_cloud_file`. `reply` is the API's answer, whose payload is the body
      read chunk by chunk; `createError` is the outcome of creating the local
      file. `written` is what ends up in the local file, `url` what was fetched. */
  method DownloadCloudFile(provider: string, fileId: string, localPath: string,
                           reply: HttpOutcome<seq<ChunkStep>>, createError: Option<string>)
    returns (r: Result<string>, written: seq<byte>, url: Option<string>)
    ensures !IsGoogle(provider) ==> r == Err(OnlyGoogle) && url == None
    ensures IsGoogle(provider) ==> url == Some(DownloadUrl(fileId))
    ensures IsGoogle(provider) && reply.SendFailed? ==> r == Err("Failed to initiate download: " + reply.reason)
    ensures IsGoogle(provider) && reply.NotSuccess? ==> r == Err("Download API Error: " + reply.body)
    ensures IsGoogle(provider) && reply.Success? && createError.Some? ==>
      r == Err("Failed to create local file: " + createError.value)
    ensures IsGoogle(provider) && reply.Success? && createError.None? ==>
      && written == Written(reply.payload)
      && (ChunkFailure(reply.payload).Some? ==> r == Err(ChunkFailure(reply.payload).value))
      && (ChunkFailure(reply.payload).None? ==> r == Ok("Successfully downloaded file to " + localPath))
    ensures !(IsGoogle(provider) && reply.Success? && createError.None?) ==> written == []
  {
    written := [];
    if !IsGoogle(provider) {
      return Err(OnlyGoogle), written, None;
    }
    url := Some(DownloadUrl(fileId));
    match reply {
      case SendFailed(e) =>
        return Err("Failed to initiate download: " + e), written, url;
      case NotSuccess(body) =>
        return Err("Download API Error: " + body), written, url;
      case Success(steps) =>
        if createError.Some? {
          return Err("Failed to create local file: " + createError.value), written, url;
        }
        var i := 0;
        while i < |steps|
          invariant 0 <= i <= |steps|
          invariant Written(steps) == written + Written(steps[i..])
          invariant ChunkFailure(steps) == ChunkFailure(steps[i..])
        {
          assert steps[i..][1..] == steps[i + 1..];
          match steps[i] {
            case ReadFailed(e) =>
              return Err("Error reading stream: " + e), written, url;
            case WriteFailed(e) =>
              return Err("Failed to write to local file: " + e), written, url;
            case Data(chunk) =>
              written := written + chunk;
          }
          i := i + 1;
        }
        r := Ok("Successfully downloaded file to " + localPath);
    }
  }

  /** The index of the last `/` in `s`, or -1 when there is none. */
  function LastSlash(s: string): (i: int)
    ensures -1 <= i < |s|
    ensures i >= 0 ==> s[i] == '/'
    ensures forall j :: i < j < |s| ==> s[j] != '/'
  {
    if s == [] then -1
    else if s[|s| - 1] == '/' then |s| - 1
    else LastSlash(s[..|s| - 1])
  }

  /** A piece of a path between separators. */
  predicate NoSlash(piece: string)
  {
    forall j :: 0 <= j < |piece| ==> piece[j] != '/'
  }

  /** Splitting `s` at every `/`: the pieces between the separators, in order. */
  function SplitSlash(s: string): (parts: seq<string>)
    ensures parts != []
    ensures forall k :: 0 <= k < |parts| ==> NoSlash(parts[k])
    decreases |s|
  {
    var i := LastSlash(s);
    if i < 0 then [s]
    else
      var last := s[i + 1..];
      assert NoSlash(last) by {
        forall j | 0 <= j < |last| ensures last[j] != '/' {
          assert last[j] == s[i + 1 + j];
        }
      }
      SplitSlash(s[..i]) + [last]
  }

  /** The pieces of a path that `Path::components` keeps as names: everything
      but empty pieces (doubled or trailing `/`) and `.`. */
  function Named(parts: seq<string>): (names: seq<string>)
    ensures forall n :: n in names ==> n in parts && n != [] && n != "."
  {
    if parts == [] then []
    else
      var last := parts[|parts| - 1];
      var front := Named(parts[..|parts| - 1]);
      if last == [] || last == "." then front else front + [last]
  }

  /** A name a path can end in: non-empty, free of `/`, and neither `.` nor `..`. */
  predicate IsFileName(name: string)
  {
    name != [] && name != "." && name != ".." && NoSlash(name)
  }

  /** `Path::file_name` with `/` as separator: the last named component, unless
      it is `..`, and nothing when there is none. */
  function FileName(path: string): (r: Option<string>)
    ensures r.Some? ==> r.value != [] && r.value != "." && r.value != ".."
  {
    var names := Named(SplitSlash(path));
    if names == [] || names[|names| - 1] == ".." then None
    else
      var last := names[|names| - 1];
      assert last in names by { assert names[|names| - 1] == last; }
      Some(last)
  }

  /** Joining the pieces with `/` gives the path back. */
  lemma {:induction false} SplitSlashJoins(s: string)
    ensures JoinWith(SplitSlash(s), "/") == s
    decreases |s|
  {
    var i := LastSlash(s);
    if i >= 0 {
      var front := SplitSlash(s[..i]);
      SplitSlashJoins(s[..i]);
      JoinSnoc(front, s[i + 1..], "/");
      assert s == s[..i] + "/" + s[i + 1..];
    }
  }

  /** A file name under any directory is what `file_name` returns. */
  lemma FileNameOfChild(dir: string, name: string)
    requires IsFileName(name)
    ensures FileName(dir + "/" + name) == Some(name)
  {
    var p := dir + "/" + name;
    assert p[..|dir|] == dir && p[|dir|] == '/' && p[|dir| + 1..] == name;
    assert LastSlash(p) == |dir|;
    assert SplitSlash(p) == SplitSlash(dir) + [name];
    assert SplitSlash(p)[..|SplitSlash(p)| - 1] == SplitSlash(dir);
  }

  /** A path that is a bare name is its own file name. */
  lemma FileNameOfName(name: string)
    requires IsFileName(name)
    ensures FileName(name) == Some(name)
  {
    assert LastSlash(name) == -1;
    assert [name][..0] == [];
  }

  /** A path ending in `/..`, or the root, has no file name. */
  lemma NoFileName(dir: string)
    ensures FileName(dir + "/..") == None
    ensures FileName("/") == None
  {
    var p := dir + "/..";
    assert p[..|dir|] == dir && p[|dir|] == '/' && p[|dir| + 1..] == "..";
    assert LastSlash(p) == |dir|;
    assert SplitSlash(p)[..|SplitSlash(p)| - 1] == SplitSlash(dir);
    var root := SplitSlash("/");
    assert LastSlash("/") == 0;
    assert "/"[..0] == [] && "/"[1..] == [];
    assert LastSlash([]) == -1;
    assert root == SplitSlash([]) + [[]];
    var empty: seq<string> := [[]];
    assert root[..1] == empty && empty[..0] == [];
    assert Named(root) == [];
  }

  /** The name the uploaded file gets: the path's file name, or `unknown_file`. */
  function UploadFileName(localPath: string): (name: string)
    ensures name != []
    ensures FileName(localPath).Some? ==> name == FileName(localPath).value
    ensures FileName(localPath).None? ==> name == "unknown_file"
  {
    OptionOr(FileName(localPath), "unknown_file")
  }

  /** The multipart request `upload_cloud_file` posts: the file's name and parent
      in the metadata part, and its contents. */
  datatype UploadRequest = UploadRequest(name: string, parent: string, contents: seq<byte>)

  /** `upload_cloud_file`. `openFile`, `metadata` and `contents` are the local file system's
      answers to opening the file (with its metadata) and reading it; `reply` is
      the API's answer. The second component is the request posted, if any. */
  function UploadCloudFile(provider: string, localPath: string, remoteParentId: Option<string>,
                           openFile: Result<()>, metadata: Result<()>, contents: Result<seq<byte>>,
                           reply: HttpOutcome<()>): (r: (Result<string>, Option<UploadRequest>))
    ensures !IsGoogle(provider) ==> r == (Err(OnlyGoogle), None)
    ensures IsGoogle(provider) && openFile.Err? ==> r == (Err("Failed to open local file: " + openFile.error), None)
    ensures IsGoogle(provider) && openFile.Ok? && metadata.Err? ==>
      r == (Err("Failed to read file metadata: " + metadata.error), None)
    ensures IsGoogle(provider) && openFile.Ok? && metadata.Ok? && contents.Err? ==>
      r == (Err("Failed to read file into memory: " + contents.error), None)
    ensures r.1.Some? <==> IsGoogle(provider) && openFile.Ok? && metadata.Ok? && contents.Ok?
    ensures r.1.Some? ==>
      && r.1.value == UploadRequest(UploadFileName(localPath), ParentOrRoot(remoteParentId), contents.value)
      && (reply.SendFailed? ==> r.0 == Err("Upload request failed: " + reply.reason))
      && (reply.NotSuccess? ==> r.0 == Err("Upload API Error: " + reply.body))
      && (reply.Success? ==> r.0 == Ok("Successfully uploaded " + UploadFileName(localPath)))
  {
    if !IsGoogle(provider) then (Err(OnlyGoogle), None)
    else if openFile.Err? then (Err("Failed to open local file: " + openFile.error), None)
    else if metadata.Err? then (Err("Failed to read file metadata: " + metadata.error), None)
    else
      var fileName := UploadFileName(localPath);
      var parentId := ParentOrRoot(remoteParentId);
      match contents
      case Err(e) => (Err("Failed to read file into memory: " + e), None)
      case Ok(bytes) =>
        var request := Some(UploadRequest(fileName, parentId, bytes));
        match reply
        case SendFailed(e) => (Err("Upload request failed: " + e), request)
        case NotSuccess(body) => (Err("Upload API Error: " + body), request)
        case Success(_) => (Ok("Successfully uploaded " + fileName), request)
  }
}
