/** The byte-moving loops of `ftp_client.rs`: the streaming read loop of
    `download_remote_file`, with its progress events, and the recursive walk of
    `recursive_download_secure` / `recursive_download_plain`. The server's answers
    are given as data: a sequence of read results, and the remote subtree. */
module FtpTransfer {
  import opened Common
  import opened Text
  import opened FtpListing

  /** `TransferProgress`, the payload of a `transfer-progress` event. */
  datatype TransferProgress = TransferProgress(
    transferId: string,
    filename: string,
    progress: nat,
    total: nat,
    status: string)

  const Downloading: string := "downloading"
  const Complete: string := "complete"

  /** One pass of the read loop: `stream.read` returned `n` bytes and they were
      written (`n == 0` is the end of the stream), or the read failed, or
      writing the bytes read failed. */
  datatype StreamStep = Chunk(n: nat) | ReadFailed(reason: string) | WriteFailed(reason: string)

  /** The bytes the stream delivers before its end; running out of steps is the
      end of the stream too. */
  function StreamBytes(steps: seq<StreamStep>): nat
  {
    if steps == [] then 0
    else match steps[0]
      case Chunk(n) => if n == 0 then 0 else n + StreamBytes(steps[1..])
      case _ => 0
  }

  /** The number of non-empty chunks before the end of the stream. */
  function ChunkCount(steps: seq<StreamStep>): nat
  {
    if steps == [] then 0
    else match steps[0]
      case Chunk(n) => if n == 0 then 0 else 1 + ChunkCount(steps[1..])
      case _ => 0
  }

  /** The first failure before the end of the stream, if any. */
  function StreamFailure(steps: seq<StreamStep>): Option<string>
  {
    if steps == [] then None
    else match steps[0]
      case Chunk(n) => if n == 0 then None else StreamFailure(steps[1..])
      case ReadFailed(e) => Some(e)
      case WriteFailed(e) => Some(e)
  }

  /** Each chunk is at least one byte, so the stream holds at least as many bytes
      as it has chunks. */
  lemma {:induction false} BytesCoverChunks(steps: seq<StreamStep>)
    ensures ChunkCount(steps) <= StreamBytes(steps)
  {
    if steps != [] && steps[0].Chunk? && steps[0].n != 0 {
      BytesCoverChunks(steps[1..]);
    }
  }

  /** Every step is a non-empty chunk: the loop ran through them all without
      reaching the end of the stream or a failure. */
  predicate AllChunks(steps: seq<StreamStep>)
  {
    forall k :: 0 <= k < |steps| ==> steps[k].Chunk? && steps[k].n > 0
  }

  /** One more non-empty chunk adds its length to the bytes delivered. */
  lemma {:induction false} StreamBytesSnoc(steps: seq<StreamStep>, n: nat)
    requires AllChunks(steps) && n > 0
    ensures StreamBytes(steps + [Chunk(n)]) == StreamBytes(steps) + n
  {
    if steps != [] {
      assert (steps + [Chunk(n)])[1..] == steps[1..] + [Chunk(n)];
      StreamBytesSnoc(steps[1..], n);
    }
  }

  /** The "downloading" events sent for a run of non-empty chunks: one per
      chunk, carrying the bytes received up to and including it. */
  function DownloadingEvents(transferId: string, filename: string, totalSize: nat,
                             steps: seq<StreamStep>): seq<TransferProgress>
    requires AllChunks(steps)
  {
    if steps == [] then []
    else
      var front := DownloadingEvents(transferId, filename, totalSize, steps[..|steps| - 1]);
      front + [TransferProgress(transferId, filename, StreamBytes(steps), totalSize, Downloading)]
  }

  /** The events of the first `i` steps, all of them non-empty chunks, carry
      strictly increasing running totals, the last of them being all the bytes
      of those steps. */
  lemma {:induction false} DownloadingEventsShape(transferId: string, filename: string, totalSize: nat,
                                                  steps: seq<StreamStep>, i: nat)
    requires i <= |steps| && AllChunks(steps[..i])
    ensures var evs := DownloadingEvents(transferId, filename, totalSize, steps[..i]);
      && |evs| == i
      && (forall k :: 0 <= k < i ==>
            evs[k] == TransferProgress(transferId, filename, StreamBytes(steps[..k + 1]), totalSize, Downloading))
      && (forall k, l :: 0 <= k < l < i ==> evs[k].progress < evs[l].progress)
      && (forall k :: 0 <= k < i ==> evs[k].progress <= StreamBytes(steps[..i]))
  {
    if i > 0 {
      var n := steps[i - 1].n;
      assert steps[..i][..i - 1] == steps[..i - 1];
      DownloadingEventsShape(transferId, filename, totalSize, steps, i - 1);
      assert steps[..i] == steps[..i - 1] + [Chunk(n)];
      StreamBytesSnoc(steps[..i - 1], n);
    }
  }

  /** The `loop { stream.read … }` of `download_remote_file`: `downloaded` counts
      the bytes, and when the size is known each chunk emits a "downloading"
      event carrying the running count. */
  method ReceiveStream(transferId: string, filename: string, totalSize: nat, steps: seq<StreamStep>)
    returns (r: Result<nat>, events: seq<TransferProgress>)
    ensures r.Ok? <==> StreamFailure(steps).None?
    ensures r.Err? ==> r.error == StreamFailure(steps).value
    ensures r.Ok? ==> r.value == StreamBytes(steps)
    ensures totalSize == 0 ==> events == []
    ensures totalSize > 0 ==> |events| == ChunkCount(steps)
    ensures forall k :: 0 <= k < |events| ==>
      events[k] == TransferProgress(transferId, filename, events[k].progress, totalSize, Downloading)
    ensures forall k, l :: 0 <= k < l < |events| ==> events[k].progress < events[l].progress
    ensures r.Ok? && events != [] ==> events[|events| - 1].progress == r.value
    ensures forall k :: 0 <= k < |events| ==>
      k < |steps| && events[k].progress == StreamBytes(steps[..k + 1])
  {
    var downloaded := 0;
    events := [];
    var i := 0;
    while i < |steps|
      invariant 0 <= i <= |steps|
      invariant StreamBytes(steps) == downloaded + StreamBytes(steps[i..])
      invariant ChunkCount(steps) == i + ChunkCount(steps[i..])
      invariant StreamFailure(steps) == StreamFailure(steps[i..])
      invariant AllChunks(steps[..i]) && downloaded == StreamBytes(steps[..i])
      invariant events == if totalSize > 0 then DownloadingEvents(transferId, filename, totalSize, steps[..i]) else []
    {
      assert steps[i..][1..] == steps[i + 1..];
      match steps[i] {
        case ReadFailed(e) =>
          DownloadingEventsShape(transferId, filename, totalSize, steps, i);
          return Err(e), events;
        case WriteFailed(e) =>
          DownloadingEventsShape(transferId, filename, totalSize, steps, i);
          return Err(e), events;
        case Chunk(n) =>
          if n == 0 {
            break;
          }
          assert steps[..i + 1] == steps[..i] + [Chunk(n)];
          StreamBytesSnoc(steps[..i], n);
          downloaded := downloaded + n;
          assert steps[..i + 1][..i] == steps[..i];
          if totalSize > 0 {
            events := events + [TransferProgress(transferId, filename, downloaded, totalSize, Downloading)];
          }
      }
      i := i + 1;
    }
    DownloadingEventsShape(transferId, filename, totalSize, steps, i);
    r := Ok(downloaded);
  }

  /** What the server holds under a path, as the client's commands see it:
      a directory whose `LIST` returns `items`, a file of `size` bytes, or a path
      the server refuses with `reason`. */
  datatype RemoteNode =
    | RemoteDir(items: seq<RemoteItem>)
    | RemoteFile(size: nat)
    | Inaccessible(reason: string)

  /** One line of a directory's `LIST` output, with what its name leads to. */
  datatype RemoteItem = RemoteItem(line: string, node: RemoteNode)

  /** A parsed entry with the node it names. */
  datatype Picked = Picked(entry: RemoteFileEntry, node: RemoteNode)

  /** A file the walk fetched and saved: its remote path and its length. */
  datatype SavedFile = SavedFile(remotePath: string, size: nat)

  /** The server's reply when the client changes into a plain file. */
  const NotADirectoryReply: string := "550 Not a directory"
  /** The server's reply when the client retrieves a directory. */
  const NotAFileReply: string := "550 Not a regular file"

  /** The number of nodes in a subtree; it bounds the depth of the walk. */
  function Size(node: RemoteNode): nat
    decreases node
  {
    match node
    case RemoteDir(items) => 1 + ItemsSize(node, |items|)
    case _ => 1
  }

  function ItemsSize(dir: RemoteNode, n: nat): nat
    requires dir.RemoteDir? && n <= |dir.items|
    decreases dir, n
  {
    if n == 0 then 0 else ItemsSize(dir, n - 1) + Size(dir.items[n - 1].node)
  }

  lemma {:induction false} ItemSmaller(dir: RemoteNode, n: nat, i: nat)
    requires dir.RemoteDir? && i < n <= |dir.items|
    ensures Size(dir.items[i].node) <= ItemsSize(dir, n)
    decreases n
  {
    if i < n - 1 {
      ItemSmaller(dir, n - 1, i);
    }
  }

  /** The loop of the walk that parses every listing line and keeps the entries
      of the lines that parse, each with the node its line names. */
  function PickEntries(items: seq<RemoteItem>): (r: seq<Picked>)
    ensures |r| <= |items|
  {
    if items == [] then []
    else
      var front := PickEntries(items[..|items| - 1]);
      var last := items[|items| - 1];
      match ParseListLine(last.line)
      case Some(e) => front + [Picked(e, last.node)]
      case None => front
  }

  /** Picking from two runs of items picks from the first, then from the second. */
  lemma {:induction false} PickEntriesAppend(a: seq<RemoteItem>, b: seq<RemoteItem>)
    ensures PickEntries(a + b) == PickEntries(a) + PickEntries(b)
    decreases |b|
  {
    if b != [] {
      var front, last := b[..|b| - 1], b[|b| - 1];
      assert (a + b)[..|a + b| - 1] == a + front;
      assert (a + b)[|a + b| - 1] == last;
      PickEntriesAppend(a, front);
      var kept := if ParseListLine(last.line).Some? then [Picked(ParseListLine(last.line).value, last.node)] else [];
      assert PickEntries(a + b) == PickEntries(a + front) + kept;
      assert PickEntries(b) == PickEntries(front) + kept;
    } else {
      assert a + b == a;
    }
  }

  /** No line is skipped and the order is kept: an item whose line parses is
      picked, with its node, between the picks of the items before it and those
      after it; an item whose line does not parse is not picked. */
  lemma ItemPicked(items: seq<RemoteItem>, k: nat)
    requires k < |items|
    ensures ParseListLine(items[k].line).Some? ==>
      PickEntries(items) == PickEntries(items[..k])
        + [Picked(ParseListLine(items[k].line).value, items[k].node)] + PickEntries(items[k + 1..])
    ensures ParseListLine(items[k].line).None? ==>
      PickEntries(items) == PickEntries(items[..k]) + PickEntries(items[k + 1..])
  {
    var before, item, after := items[..k], items[k], items[k + 1..];
    SplitAround(items, k);
    PickEntriesAppend(before + [item], after);
    PickEntriesAppend(before, [item]);
    assert [item][..0] == [];
  }

  /** Every picked entry is the parse of one of the lines, paired with that line's node. */
  lemma {:induction false} PickedFromItem(items: seq<RemoteItem>, k: nat)
    requires k < |PickEntries(items)|
    ensures exists i :: (0 <= i < |items| && PickEntries(items)[k].node == items[i].node &&
      ParseListLine(items[i].line) == Some(PickEntries(items)[k].entry))
  {
    var front := items[..|items| - 1];
    if k < |PickEntries(front)| {
      PickedFromItem(front, k);
      var i :| 0 <= i < |front| && PickEntries(front)[k].node == front[i].node &&
        ParseListLine(front[i].line) == Some(PickEntries(front)[k].entry);
      assert items[i] == front[i];
    } else {
      assert PickEntries(items)[k].node == items[|items| - 1].node;
    }
  }

  /** Every picked node is a strictly smaller subtree than the directory. */
  lemma PickedSmaller(dir: RemoteNode, k: nat)
    requires dir.RemoteDir? && k < |PickEntries(dir.items)|
    ensures Size(PickEntries(dir.items)[k].node) < Size(dir)
    ensures PickEntries(dir.items)[k].entry.name != "." && PickEntries(dir.items)[k].entry.name != ".."
  {
    PickedFromItem(dir.items, k);
    var i :| 0 <= i < |dir.items| && PickEntries(dir.items)[k].node == dir.items[i].node &&
      ParseListLine(dir.items[i].line) == Some(PickEntries(dir.items)[k].entry);
    ItemSmaller(dir, |dir.items|, i);
  }

  function SumSizes(files: seq<SavedFile>): nat
  {
    if files == [] then 0 else SumSizes(files[..|files| - 1]) + files[|files| - 1].size
  }

  lemma {:induction false} SumSizesAppend(a: seq<SavedFile>, b: seq<SavedFile>)
    ensures SumSizes(a + b) == SumSizes(a) + SumSizes(b)
    decreases |b|
  {
    if b != [] {
      var ab := a + b;
      assert ab[..|ab| - 1] == a + b[..|b| - 1];
      assert ab[|ab| - 1] == b[|b| - 1];
      SumSizesAppend(a, b[..|b| - 1]);
    } else {
      assert a + b == a;
    }
  }

  /** The path each entry of `remote_dir` is reached by: the directory, a `/`, and the entry's name. */
  function ChildPath(remoteDir: string, name: string): (p: string)
    ensures IsPrefix(remoteDir + "/", p) && p[|remoteDir| + 1..] == name
  {
    remoteDir + "/" + name
  }

  /** What `recursive_download_*` does for the subtree at `remoteDir`: the files it
      saves, in order, or the message of the first failure. */
  function FolderDownload(remoteDir: string, node: RemoteNode): (r: Result<seq<SavedFile>>)
    ensures r.Ok? ==> node.RemoteDir?
    decreases Size(node), 1, 0
  {
    match node
    case RemoteFile(_) => Err("CWD failed to " + remoteDir + ": " + NotADirectoryReply)
    case Inaccessible(e) => Err("CWD failed to " + remoteDir + ": " + e)
    case RemoteDir(items) =>
      var entries := PickEntries(items);
      assert forall k :: 0 <= k < |entries| ==> Size(entries[k].node) < Size(node) by {
        forall k | 0 <= k < |entries| ensures Size(entries[k].node) < Size(node) {
          PickedSmaller(node, k);
        }
      }
      EntriesDownload(remoteDir, entries, Size(node), |entries|)
  }

  /** The first `n` entries of the `for entry in entries` loop. */
  function EntriesDownload(remoteDir: string, entries: seq<Picked>, bound: nat, n: nat): (r: Result<seq<SavedFile>>)
    requires n <= |entries|
    requires forall k :: 0 <= k < |entries| ==> Size(entries[k].node) < bound
    ensures r.Ok? ==> forall k :: 0 <= k < n ==> EntryDownload(remoteDir, entries[k], bound).Ok?
    decreases bound, 0, n
  {
    if n == 0 then Ok([])
    else
      match EntriesDownload(remoteDir, entries, bound, n - 1)
      case Err(e) => Err(e)
      case Ok(front) =>
        match EntryDownload(remoteDir, entries[n - 1], bound)
        case Err(e) => Err(e)
        case Ok(more) => Ok(front + more)
  }

  /** A directory's walk is the walk of its parsed entries. */
  lemma FolderOfDir(remoteDir: string, node: RemoteNode)
    requires node.RemoteDir?
    ensures forall k :: 0 <= k < |PickEntries(node.items)| ==> Size(PickEntries(node.items)[k].node) < Size(node)
    ensures FolderDownload(remoteDir, node) ==
      EntriesDownload(remoteDir, PickEntries(node.items), Size(node), |PickEntries(node.items)|)
  {
    var entries := PickEntries(node.items);
    forall k | 0 <= k < |entries| ensures Size(entries[k].node) < Size(node) {
      PickedSmaller(node, k);
    }
  }

  /** One more entry of the loop, when the ones before it succeeded. */
  lemma EntriesStep(remoteDir: string, entries: seq<Picked>, bound: nat, k: nat, front: seq<SavedFile>)
    requires k < |entries|
    requires forall i :: 0 <= i < |entries| ==> Size(entries[i].node) < bound
    requires EntriesDownload(remoteDir, entries, bound, k) == Ok(front)
    ensures var step := EntryDownload(remoteDir, entries[k], bound);
      EntriesDownload(remoteDir, entries, bound, k + 1) ==
        if step.Ok? then Ok(front + step.value) else Err(step.error)
  {
  }

  /** The loop stops at the first failure: later entries do not change it. */
  lemma {:induction false} FailureSticks(remoteDir: string, entries: seq<Picked>, bound: nat, m: nat, n: nat)
    requires m <= n <= |entries|
    requires forall k :: 0 <= k < |entries| ==> Size(entries[k].node) < bound
    requires EntriesDownload(remoteDir, entries, bound, m).Err?
    ensures EntriesDownload(remoteDir, entries, bound, n) == EntriesDownload(remoteDir, entries, bound, m)
    decreases n
  {
    if m < n {
      FailureSticks(remoteDir, entries, bound, m, n - 1);
    }
  }

  /** One pass of that loop: recurse into a directory at `remote_dir/name`, or
      retrieve a file by its name. */
  function EntryDownload(remoteDir: string, p: Picked, bound: nat): (r: Result<seq<SavedFile>>)
    requires Size(p.node) < bound
    ensures r.Ok? && !p.entry.isDir ==> p.node.RemoteFile? && |r.value| == 1
    decreases bound, 0, 0
  {
    var path := ChildPath(remoteDir, p.entry.name);
    if p.entry.isDir then
      FolderDownload(path, p.node)
    else
      match p.node
      case RemoteFile(size) => Ok([SavedFile(path, size)])
      case RemoteDir(_) => Err("Download failed for " + p.entry.name + ": " + NotAFileReply)
      case Inaccessible(e) => Err("Download failed for " + p.entry.name + ": " + e)
  }

  /** Every file saved from `remoteDir` has a path below `remoteDir + "/"`. */
  lemma {:induction false} SavedBelow(remoteDir: string, node: RemoteNode)
    requires FolderDownload(remoteDir, node).Ok?
    ensures forall f :: f in FolderDownload(remoteDir, node).value ==> IsPrefix(remoteDir + "/", f.remotePath)
    decreases Size(node), 1, 0
  {
    var entries := PickEntries(node.items);
    forall k | 0 <= k < |entries| ensures Size(entries[k].node) < Size(node) {
      PickedSmaller(node, k);
    }
    EntriesBelow(remoteDir, entries, Size(node), |entries|);
  }

  lemma {:induction false} EntriesBelow(remoteDir: string, entries: seq<Picked>, bound: nat, n: nat)
    requires n <= |entries|
    requires forall k :: 0 <= k < |entries| ==> Size(entries[k].node) < bound
    requires EntriesDownload(remoteDir, entries, bound, n).Ok?
    ensures forall f :: f in EntriesDownload(remoteDir, entries, bound, n).value ==>
      IsPrefix(remoteDir + "/", f.remotePath)
    decreases bound, 0, n
  {
    if n > 0 {
      EntriesBelow(remoteDir, entries, bound, n - 1);
      var p := entries[n - 1];
      var path := ChildPath(remoteDir, p.entry.name);
      assert IsPrefix(remoteDir + "/", path);
      assert EntryDownload(remoteDir, p, bound).Ok?;
      if p.entry.isDir {
        SavedBelow(path, p.node);
        forall f | f in FolderDownload(path, p.node).value
          ensures IsPrefix(remoteDir + "/", f.remotePath)
        {
          assert IsPrefix(path + "/", f.remotePath);
          assert f.remotePath[..|remoteDir + "/"|] == (path + "/")[..|remoteDir + "/"|];
        }
      }
    }
  }

  /** The bytes of every file the listings lead to under `node`, counted on the
      tree alone, without the paths the walk uses. */
  function TreeBytes(node: RemoteNode): nat
    decreases Size(node), 1, 0
  {
    match node
    case RemoteDir(items) =>
      var entries := PickEntries(items);
      assert forall k :: 0 <= k < |entries| ==> Size(entries[k].node) < Size(node) by {
        forall k | 0 <= k < |entries| ensures Size(entries[k].node) < Size(node) {
          PickedSmaller(node, k);
        }
      }
      EntriesBytes(entries, Size(node), |entries|)
    case _ => 0
  }

  function EntriesBytes(entries: seq<Picked>, bound: nat, n: nat): nat
    requires n <= |entries|
    requires forall k :: 0 <= k < |entries| ==> Size(entries[k].node) < bound
    decreases bound, 0, n
  {
    if n == 0 then 0
    else
      var p := entries[n - 1];
      EntriesBytes(entries, bound, n - 1) +
        if p.entry.isDir then TreeBytes(p.node)
        else if p.node.RemoteFile? then p.node.size
        else 0
  }

  /** A walk that succeeds saves exactly the bytes of the subtree, wherever it
      starts from. */
  lemma {:induction false} SavedBytesAreTreeBytes(remoteDir: string, node: RemoteNode)
    requires FolderDownload(remoteDir, node).Ok?
    ensures SumSizes(FolderDownload(remoteDir, node).value) == TreeBytes(node)
    decreases Size(node), 1, 0
  {
    FolderOfDir(remoteDir, node);
    var entries := PickEntries(node.items);
    EntriesSavedBytes(remoteDir, entries, Size(node), |entries|);
  }

  lemma {:induction false} EntriesSavedBytes(remoteDir: string, entries: seq<Picked>, bound: nat, n: nat)
    requires n <= |entries|
    requires forall k :: 0 <= k < |entries| ==> Size(entries[k].node) < bound
    requires EntriesDownload(remoteDir, entries, bound, n).Ok?
    ensures SumSizes(EntriesDownload(remoteDir, entries, bound, n).value) == EntriesBytes(entries, bound, n)
    decreases bound, 0, n
  {
    if n > 0 {
      var front := EntriesDownload(remoteDir, entries, bound, n - 1);
      EntriesSavedBytes(remoteDir, entries, bound, n - 1);
      var p := entries[n - 1];
      var more := EntryDownload(remoteDir, p, bound);
      SumSizesAppend(front.value, more.value);
      if p.entry.isDir {
        SavedBytesAreTreeBytes(ChildPath(remoteDir, p.entry.name), p.node);
      } else {
        assert more.value == [SavedFile(ChildPath(remoteDir, p.entry.name), p.node.size)];
      }
    }
  }

  /** The loop that pushes every parsable line's entry into `entries`. */
  method CollectEntries(lines: seq<RemoteItem>) returns (entries: seq<Picked>)
    ensures entries == PickEntries(lines)
  {
    entries := [];
    var i := 0;
    while i < |lines|
      invariant 0 <= i <= |lines|
      invariant entries == PickEntries(lines[..i])
    {
      assert lines[..i + 1][..i] == lines[..i];
      match ParseListLine(lines[i].line) {
        case Some(entry) =>
          entries := entries + [Picked(entry, lines[i].node)];
        case None =>
      }
      i := i + 1;
    }
    assert lines[..i] == lines;
  }

  /** `recursive_download_secure` / `recursive_download_plain`: change into
      `remoteDir`, list it, then fetch every file and recurse into every
      directory, summing the bytes saved. */
  method RecursiveDownload(remoteDir: string, node: RemoteNode)
    returns (r: Result<nat>, saved: seq<SavedFile>)
    ensures FolderDownload(remoteDir, node).Ok? ==>
      r == Ok(SumSizes(saved)) && saved == FolderDownload(remoteDir, node).value
    ensures FolderDownload(remoteDir, node).Err? ==>
      r == Err(FolderDownload(remoteDir, node).error)
    decreases Size(node), 2
  {
    saved := [];
    if !node.RemoteDir? {
      var reason := if node.RemoteFile? then NotADirectoryReply else node.reason;
      return Err("CWD failed to " + remoteDir + ": " + reason), saved;
    }
    var entries := CollectEntries(node.items);
    FolderOfDir(remoteDir, node);
    r, saved := FetchEntries(remoteDir, entries, Size(node));
  }

  /** The `for entry in entries` loop: fetch the entries in order, stopping at
      the first failure, and add up `total_bytes`. */
  method FetchEntries(remoteDir: string, entries: seq<Picked>, bound: nat)
    returns (r: Result<nat>, saved: seq<SavedFile>)
    requires forall k :: 0 <= k < |entries| ==> Size(entries[k].node) < bound
    ensures var spec := EntriesDownload(remoteDir, entries, bound, |entries|);
      && (spec.Ok? ==> r == Ok(SumSizes(saved)) && saved == spec.value)
      && (spec.Err? ==> r == Err(spec.error))
    decreases bound, 1
  {
    saved := [];
    var totalBytes := 0;
    var k := 0;
    while k < |entries|
      invariant 0 <= k <= |entries|
      invariant EntriesDownload(remoteDir, entries, bound, k) == Ok(saved)
      invariant totalBytes == SumSizes(saved)
    {
      var more, bytes := FetchEntry(remoteDir, entries[k], bound);
      EntriesStep(remoteDir, entries, bound, k, saved);
      if more.Err? {
        FailureSticks(remoteDir, entries, bound, k + 1, |entries|);
        return Err(more.error), saved;
      }
      SumSizesAppend(saved, more.value);
      totalBytes := totalBytes + bytes;
      saved := saved + more.value;
      k := k + 1;
    }
    r := Ok(totalBytes);
  }

  /** The body of the `for entry in entries` loop for one entry; `bytes` is what
      it adds to `total_bytes`. */
  method FetchEntry(remoteDir: string, p: Picked, bound: nat)
    returns (r: Result<seq<SavedFile>>, bytes: nat)
    requires Size(p.node) < bound
    ensures r == EntryDownload(remoteDir, p, bound)
    ensures r.Ok? ==> bytes == SumSizes(r.value)
    decreases bound, 0
  {
    var entryRemotePath := ChildPath(remoteDir, p.entry.name);
    if p.entry.isDir {
      var sub, subSaved := RecursiveDownload(entryRemotePath, p.node);
      if sub.Err? {
        return Err(sub.error), 0;
      }
      return Ok(subSaved), sub.value;
    }
    match p.node
    case RemoteFile(size) =>
      assert SumSizes([SavedFile(entryRemotePath, size)]) == size;
      return Ok([SavedFile(entryRemotePath, size)]), size;
    case RemoteDir(_) =>
      return Err("Download failed for " + p.entry.name + ": " + NotAFileReply), 0;
    case Inaccessible(e) =>
      return Err("Download failed for " + p.entry.name + ": " + e), 0;
  }
}
