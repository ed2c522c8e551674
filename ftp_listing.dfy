/** Parsing of Unix-style FTP `LIST` output into entries
    (`parse_list_line` in `ftp_client.rs`), the listing order, and the
    absolute remote path a folder download starts from. */
module FtpListing {
  import opened Common
  import opened Text
  import opened Ordering

  /** `RemoteFileEntry`. */
  datatype RemoteFileEntry = RemoteFileEntry(
    name: string,
    isDir: bool,
    size: nat,
    permissions: string,
    modified: string)

  /** The sort key the listing comparator uses. */
  function RemoteKey(e: RemoteFileEntry): SortKey
  {
    SortKey(e.isDir, e.name)
  }

  /** `parse_list_line`: a line in the Unix `ls -l` layout (permissions, link
      count, owner, group, size, three date fields, then the name) becomes an
      entry; a line with fewer than nine fields, or naming `.` or `..`, does not. */
  function ParseListLine(line: string): (r: Option<RemoteFileEntry>)
    ensures r.Some? ==> |Fields(line)| >= 9 && r.value.name != "." && r.value.name != ".."
    ensures r.Some? ==> r.value.isDir == StartsWithChar(r.value.permissions, 'd')
  {
    var parts := Fields(line);
    if |parts| < 9 then None
    else
      var perms := parts[0];
      var name := JoinWith(parts[8..], " ");
      if name == "." || name == ".." then None
      else
        Some(RemoteFileEntry(
          name := name,
          isDir := StartsWithChar(perms, 'd'),
          size := OptionOr(ParseU64(parts[4]), 0),
          permissions := perms,
          modified := parts[5] + " " + parts[6] + " " + parts[7]))
  }

  /** The listing of `list_remote_directory`: the entries of the lines that
      parse, in the order of the lines. */
  function ParseListing(lines: seq<string>): (r: seq<RemoteFileEntry>)
    ensures |r| <= |lines|
  {
    if lines == [] then []
    else
      var front := ParseListing(lines[..|lines| - 1]);
      match ParseListLine(lines[|lines| - 1])
      case Some(e) => front + [e]
      case None => front
  }

  /** The listing of two runs of lines is the listing of the first followed
      by the listing of the second. */
  lemma {:induction false} ParseListingAppend(a: seq<string>, b: seq<string>)
    ensures ParseListing(a + b) == ParseListing(a) + ParseListing(b)
    decreases |b|
  {
    if b != [] {
      var front, last := b[..|b| - 1], b[|b| - 1];
      assert (a + b)[..|a + b| - 1] == a + front;
      assert (a + b)[|a + b| - 1] == last;
      ParseListingAppend(a, front);
      var kept := if ParseListLine(last).Some? then [ParseListLine(last).value] else [];
      assert ParseListing(a + b) == ParseListing(a + front) + kept;
      assert ParseListing(b) == ParseListing(front) + kept;
    } else {
      assert a + b == a;
    }
  }

  /** Every line is accounted for, in place: a line that parses contributes its
      entry, between the entries of the lines before it and those after it, and
      a line that does not parse contributes nothing. */
  lemma ParsedLineListed(lines: seq<string>, k: nat)
    requires k < |lines|
    ensures ParseListLine(lines[k]).Some? ==>
      ParseListing(lines) == ParseListing(lines[..k]) + [ParseListLine(lines[k]).value] + ParseListing(lines[k + 1..])
    ensures ParseListLine(lines[k]).None? ==>
      ParseListing(lines) == ParseListing(lines[..k]) + ParseListing(lines[k + 1..])
  {
    var before, line, after := lines[..k], lines[k], lines[k + 1..];
    SplitAround(lines, k);
    ParseListingAppend(before + [line], after);
    ParseListingAppend(before, [line]);
    ParseListingOne(line);
  }

  /** The listing of a single line. */
  lemma ParseListingOne(line: string)
    ensures ParseListLine(line).Some? ==> ParseListing([line]) == [ParseListLine(line).value]
    ensures ParseListLine(line).None? ==> ParseListing([line]) == []
  {
    assert [line][..0] == [];
  }

  /** A line yields an entry exactly when it has at least nine fields and the
      name they end with is neither `.` nor `..`. */
  lemma ParseAcceptsExactly(line: string)
    ensures ParseListLine(line).Some? <==>
      |Fields(line)| >= 9 && JoinWith(Fields(line)[8..], " ") !in {".", ".."}
  {
  }

  /** Every field of a parsed entry, read off the line's whitespace-separated fields. */
  lemma ParsedFields(line: string)
    requires ParseListLine(line).Some?
    ensures var e, parts := ParseListLine(line).value, Fields(line);
      && e.permissions == parts[0]
      && (e.isDir <==> e.permissions[0] == 'd')
      && (ParseU64(parts[4]).Some? ==> e.size == ParseU64(parts[4]).value)
      && (ParseU64(parts[4]).None? ==> e.size == 0)
      && e.modified == parts[5] + " " + parts[6] + " " + parts[7]
      && e.name == JoinWith(parts[8..], " ")
      && e.name != "." && e.name != ".."
  {
  }

  /** The entry a line yields is in normal form: its name has no run of
      whitespace, its permissions are one field, its size fits in a `u64`. */
  ghost predicate WellFormedEntry(e: RemoteFileEntry)
  {
    && IsToken(e.permissions)
    && e.isDir == (e.permissions[0] == 'd')
    && e.size < U64Limit
    && |Fields(e.modified)| == 3 && JoinWith(Fields(e.modified), " ") == e.modified
    && Fields(e.name) != [] && JoinWith(Fields(e.name), " ") == e.name
    && e.name != "." && e.name != ".."
  }

  /** A `LIST` line as a Unix server writes it for an entry, with the link count,
      owner and group that the parser ignores. */
  function FormatListLine(e: RemoteFileEntry, links: string, owner: string, group: string): string
  {
    JoinWith([e.permissions, links, owner, group, DecimalString(e.size)]
             + Fields(e.modified) + Fields(e.name), " ")
  }

  lemma JoinThree(ts: seq<string>)
    requires |ts| == 3
    ensures JoinWith(ts, " ") == ts[0] + " " + ts[1] + " " + ts[2]
  {
    assert ts[1..][1..] == [ts[2]];
    assert JoinWith(ts[1..], " ") == ts[1] + " " + ts[2];
  }

  /** Whatever a line yields is well formed, and every name collapses runs of
      whitespace to single spaces. */
  lemma {:induction false} ParsedIsWellFormed(line: string)
    requires ParseListLine(line).Some?
    ensures WellFormedEntry(ParseListLine(line).value)
    ensures SingleSpaced(ParseListLine(line).value.name)
  {
    var parts := Fields(line);
    var e := ParseListLine(line).value;
    FieldsOfJoin(parts[8..]);
    JoinIsSingleSpaced(parts[8..]);
    var m := [parts[5], parts[6], parts[7]];
    JoinThree(m);
    FieldsOfJoin(m);
  }

  /** What the parser reads off a line whose fields are known. */
  lemma ParseOfFields(line: string, e: RemoteFileEntry)
    requires var ts := Fields(line);
      && |ts| >= 9
      && ts[0] == e.permissions && e.isDir == (e.permissions[0] == 'd') && e.permissions != []
      && ParseU64(ts[4]) == Some(e.size)
      && ts[5] + " " + ts[6] + " " + ts[7] == e.modified
      && JoinWith(ts[8..], " ") == e.name
      && e.name != "." && e.name != ".."
    ensures ParseListLine(line) == Some(e)
  {
  }

  lemma AllTokensConcat(a: seq<string>, b: seq<string>)
    requires AllTokens(a) && AllTokens(b)
    ensures AllTokens(a + b)
  {
    forall k | 0 <= k < |a + b| ensures IsToken((a + b)[k]) {
      if k >= |a| { assert (a + b)[k] == b[k - |a|]; }
    }
  }

  /** Parsing the line a server writes for a well-formed entry gives the entry back. */
  lemma {:induction false} ParseOfFormattedLine(e: RemoteFileEntry, links: string, owner: string, group: string)
    requires WellFormedEntry(e)
    requires IsToken(links) && IsToken(owner) && IsToken(group)
    ensures ParseListLine(FormatListLine(e, links, owner, group)) == Some(e)
  {
    var head := [e.permissions, links, owner, group, DecimalString(e.size)];
    var ms, ns := Fields(e.modified), Fields(e.name);
    AllTokensConcat(head, ms);
    AllTokensConcat(head + ms, ns);
    var ts := head + ms + ns;
    var line := FormatListLine(e, links, owner, group);
    FieldsOfJoin(ts);
    assert ts[5..8] == ms && ts[8..] == ns;
    JoinThree(ms);
    ParseOfDecimal(e.size);
    ParseOfFields(line, e);
  }

  /** The listing `list_remote_directory` returns: the parsed lines, sorted. */
  ghost predicate IsSortedListing(lines: seq<string>, r: seq<RemoteFileEntry>)
  {
    && multiset(r) == multiset(ParseListing(lines))
    && SortedBy(r, RemoteKey)
  }

  /** Every entry of a parsed listing came from one of the lines. */
  lemma {:induction false} ListingEntriesFromLines(lines: seq<string>, e: RemoteFileEntry)
    requires e in ParseListing(lines)
    ensures exists k :: 0 <= k < |lines| && ParseListLine(lines[k]) == Some(e)
  {
    var front := lines[..|lines| - 1];
    if e in ParseListing(front) {
      ListingEntriesFromLines(front, e);
      var k :| 0 <= k < |front| && ParseListLine(front[k]) == Some(e);
      assert lines[k] == front[k];
    } else {
      assert ParseListLine(lines[|lines| - 1]) == Some(e);
    }
  }

  /** No listing contains `.` or `..`. */
  lemma ListingHasNoDotEntries(lines: seq<string>, e: RemoteFileEntry)
    requires e in ParseListing(lines)
    ensures e.name != "." && e.name != ".."
  {
    ListingEntriesFromLines(lines, e);
  }

  /** `absolute_remote` in `download_remote_folder`: an absolute `remote_dir` is
      kept, a relative one is appended to the working directory (or `/` when
      `PWD` fails) with exactly one `/` between them. */
  function AbsoluteRemote(remoteDir: string, pwd: Result<string>): (r: string)
    ensures StartsWithChar(remoteDir, '/') ==> r == remoteDir
    ensures !StartsWithChar(remoteDir, '/') && pwd.Err? ==> r == "/" + remoteDir
    ensures !StartsWithChar(remoteDir, '/') && pwd.Ok? && EndsWithChar(pwd.value, '/') ==>
      r == pwd.value + remoteDir
    ensures !StartsWithChar(remoteDir, '/') && pwd.Ok? && !EndsWithChar(pwd.value, '/') ==>
      r == pwd.value + "/" + remoteDir
  {
    var origCwd := match pwd case Ok(p) => p case Err(_) => "/";
    if StartsWithChar(remoteDir, '/') then remoteDir
    else
      var sep := if EndsWithChar(origCwd, '/') then "" else "/";
      origCwd + sep + remoteDir
  }

  /** The working directory and the relative name are both kept, in order. */
  lemma AbsoluteRemoteKeepsParts(remoteDir: string, pwd: Result<string>)
    requires !StartsWithChar(remoteDir, '/')
    ensures var cwd := if pwd.Ok? then pwd.value else "/";
      var r := AbsoluteRemote(remoteDir, pwd);
      IsPrefix(cwd, r) && r[|r| - |remoteDir|..] == remoteDir
  {
  }

  /** An absolute working directory gives an absolute path. */
  lemma AbsoluteRemoteIsAbsolute(remoteDir: string, pwd: Result<string>)
    requires pwd.Ok? ==> StartsWithChar(pwd.value, '/')
    ensures StartsWithChar(AbsoluteRemote(remoteDir, pwd), '/')
  {
  }
}
