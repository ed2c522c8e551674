/** The local-disk commands of `fs_commands.rs`: listing a directory and the
    extension handling of the icon lookup. The file system, the home directory,
    the icon library and the base64 encoder are parameters. */
module FsCommands {
  import opened Common
  import opened Text
  import opened Ordering

  /** `FileEntry`. */
  datatype FileEntry = FileEntry(name: string, path: string, isDir: bool, size: nat)

  /** What `entry.metadata()` reports when it succeeds. */
  datatype Metadata = Metadata(isDir: bool, len: nat)

  /** One item `read_dir` yields: an error (which `flatten` drops), or an entry
      with its name, full path, and its metadata if that could be read. */
  datatype DirItem =
    | Unreadable(reason: string)
    | Item(name: string, path: string, metadata: Option<Metadata>)

  /** What the file system holds at a path. A directory's `listing` is what
      `read_dir` returns: its items, or the error opening it. */
  datatype LocalNode =
    | LocalDir(listing: Result<seq<DirItem>>)
    | LocalFile

  /** The local file system: the node at each existing path. */
  type FileSystem = map<string, LocalNode>

  /** The directory `list_directory` lists: the given path, or when it is empty
      the home directory, or `C:\` when there is none. */
  function ResolvePath(path: string, home: Option<string>): (r: string)
    ensures path != [] ==> r == path
    ensures path == [] && home.Some? ==> r == home.value
    ensures path == [] && home.None? ==> r == "C:\\"
  {
    if path != [] then path else OptionOr(home, "C:\\")
  }

  /** Resolving an already resolved path changes nothing, as long as the home
      directory is not itself the empty path. */
  lemma ResolveIdempotent(path: string, home: Option<string>)
    requires home.Some? ==> home.value != []
    ensures ResolvePath(ResolvePath(path, home), home) == ResolvePath(path, home)
    ensures ResolvePath(path, home) != []
  {
  }

  /** The entry listed for a readable item; an item whose metadata cannot be
      read is listed as a file of size zero. */
  function EntryOf(item: DirItem): (e: FileEntry)
    requires item.Item?
    ensures e.name == item.name && e.path == item.path
    ensures item.metadata.None? ==> !e.isDir && e.size == 0
    ensures item.metadata.Some? ==> e.isDir == item.metadata.value.isDir && e.size == item.metadata.value.len
  {
    match item.metadata
    case Some(m) => FileEntry(item.name, item.path, m.isDir, m.len)
    case None => FileEntry(item.name, item.path, false, 0)
  }

  /** `read_dir.flatten()` mapped to entries. */
  function Collect(items: seq<DirItem>): (r: seq<FileEntry>)
    ensures |r| <= |items|
  {
    if items == [] then []
    else
      var front := Collect(items[..|items| - 1]);
      var last := items[|items| - 1];
      if last.Item? then front + [EntryOf(last)] else front
  }

  /** Every readable item is listed, and every listed entry comes from a readable
      item: only the items `read_dir` could not produce are dropped. */
  lemma {:induction false} CollectListsReadable(items: seq<DirItem>)
    ensures forall i :: 0 <= i < |items| && items[i].Item? ==> EntryOf(items[i]) in Collect(items)
    ensures forall e :: e in Collect(items) ==> exists i :: 0 <= i < |items| && items[i].Item? && e == EntryOf(items[i])
  {
    if items != [] {
      var front := items[..|items| - 1];
      CollectListsReadable(front);
      forall i | 0 <= i < |items| && items[i].Item? ensures EntryOf(items[i]) in Collect(items) {
        if i < |front| { assert items[i] == front[i]; }
      }
      forall e | e in Collect(items)
        ensures exists i :: 0 <= i < |items| && items[i].Item? && e == EntryOf(items[i])
      {
        if e in Collect(front) {
          var i :| 0 <= i < |front| && front[i].Item? && e == EntryOf(front[i]);
          assert items[i] == front[i];
        } else {
          assert e == EntryOf(items[|items| - 1]);
        }
      }
    }
  }

  /** The number of items `flatten` keeps. */
  function ReadableCount(items: seq<DirItem>): nat
  {
    if items == [] then 0
    else ReadableCount(items[..|items| - 1]) + (if items[|items| - 1].Item? then 1 else 0)
  }

  /** One entry per readable item. */
  lemma {:induction false} CollectLength(items: seq<DirItem>)
    ensures |Collect(items)| == ReadableCount(items)
  {
    if items != [] {
      CollectLength(items[..|items| - 1]);
    }
  }

  function FileKey(e: FileEntry): SortKey
  {
    SortKey(e.isDir, e.name)
  }

  /** The `for entry in read_dir.flatten()` loop: push one entry per readable item. */
  method CollectEntries(items: seq<DirItem>) returns (entries: seq<FileEntry>)
    ensures entries == Collect(items)
  {
    entries := [];
    var i := 0;
    while i < |items|
      invariant 0 <= i <= |items|
      invariant entries == Collect(items[..i])
    {
      assert items[..i + 1][..i] == items[..i];
      match items[i] {
        case Unreadable(_) =>
        case Item(_, _, _) =>
          entries := entries + [EntryOf(items[i])];
      }
      i := i + 1;
    }
    assert items[..i] == items;
  }

  /** `list_directory`: resolve the path, check that it exists and then that it
      is a directory, read it, and sort the entries directories first, then by
      lower-cased name. */
  method ListDirectory(path: string, home: Option<string>, fs: FileSystem)
    returns (r: Result<seq<FileEntry>>)
    ensures var dir := ResolvePath(path, home);
      && (dir !in fs ==> r == Err("Path does not exist: " + dir))
      && (dir in fs && fs[dir].LocalFile? ==> r == Err("Not a directory: " + dir))
      && (dir in fs && fs[dir].LocalDir? && fs[dir].listing.Err? ==>
            r == Err("Failed to read directory: " + fs[dir].listing.error))
      && (r.Ok? <==> dir in fs && fs[dir].LocalDir? && fs[dir].listing.Ok?)
      && (r.Ok? ==>
            && multiset(r.value) == multiset(Collect(fs[dir].listing.value))
            && SortedBy(r.value, FileKey))
  {
    var dir := ResolvePath(path, home);
    if dir !in fs {
      return Err("Path does not exist: " + dir);
    }
    if !fs[dir].LocalDir? {
      return Err("Not a directory: " + dir);
    }
    match fs[dir].listing {
      case Err(e) =>
        return Err("Failed to read directory: " + e);
      case Ok(items) =>
        var collected := CollectEntries(items);
        var entries := new FileEntry[|collected|](i requires 0 <= i < |collected| => collected[i]);
        assert entries[..] == collected;
        SortByKey(entries, FileKey);
        r := Ok(entries[..]);
    }
  }

  /** `get_home_dir`. */
  function GetHomeDir(home: Option<string>): (r: Result<string>)
    ensures r.Ok? <==> home.Some?
    ensures r.Ok? ==> r.value == home.value
    ensures r.Err? ==> r.error == "Could not determine home directory"
  {
    match home
    case Some(h) => Ok(h)
    case None => Err("Could not determine home directory")
  }

  /** The extension `get_file_icon` asks for: kept when it already starts with a
      dot, refused when empty, otherwise given a leading dot. */
  function NormalizeExtension(ext: string): (r: Result<string>)
    ensures r.Err? <==> ext == []
    ensures r.Err? ==> r.error == "Empty extension"
    ensures r.Ok? ==> StartsWithChar(r.value, '.')
    ensures r.Ok? ==> |ext| <= |r.value| <= |ext| + 1 && r.value[|r.value| - |ext|..] == ext
  {
    if StartsWithChar(ext, '.') then Ok(ext)
    else if ext == [] then Err("Empty extension")
    else Ok("." + ext)
  }

  /** Normalising a normalised extension gives it back. */
  lemma NormalizeIdempotent(ext: string)
    requires NormalizeExtension(ext).Ok?
    ensures NormalizeExtension(NormalizeExtension(ext).value) == NormalizeExtension(ext)
  {
  }

  /** At most one dot is added: the result is the extension, or a dot and the
      extension. */
  lemma NormalizeAddsAtMostOneDot(ext: string)
    requires NormalizeExtension(ext).Ok?
    ensures var e := NormalizeExtension(ext).value;
      e == ext || (e[0] == '.' && e[1..] == ext && !StartsWithChar(ext, '.'))
  {
  }

  const IconPrefix: string := "data:image/png;base64,"

  /** `get_file_icon`. `getIcon` stands for the icon library (its error already
      rendered as text) and `encode` for the base64 encoder. */
  function GetFileIcon(ext: string, getIcon: string -> Result<seq<byte>>, encode: seq<byte> -> string): (r: Result<string>)
    ensures NormalizeExtension(ext).Err? ==> r == Err("Empty extension")
    ensures NormalizeExtension(ext).Ok? && getIcon(NormalizeExtension(ext).value).Err? ==>
      r == Err("Failed to get icon for " + NormalizeExtension(ext).value + ": " +
               getIcon(NormalizeExtension(ext).value).error)
    ensures r.Ok? <==> NormalizeExtension(ext).Ok? && getIcon(NormalizeExtension(ext).value).Ok?
    ensures r.Ok? ==> IsPrefix(IconPrefix, r.value)
    ensures r.Ok? ==> r.value[|IconPrefix|..] == encode(getIcon(NormalizeExtension(ext).value).value)
  {
    match NormalizeExtension(ext)
    case Err(e) => Err(e)
    case Ok(extWithDot) =>
      match getIcon(extWithDot)
      case Ok(iconBytes) => Ok(IconPrefix + encode(iconBytes))
      case Err(e) => Err("Failed to get icon for " + extWithDot + ": " + e)
  }
}
