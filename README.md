# A verified model of the Rust backend of a side-by-side file-transfer app

The application shows a local directory tree next to a remote one (an FTP
server or a Google Drive account) and moves files between them. Its Rust
backend (the `src-tauri/src` directory) answers the front end's commands. This
project models that backend's logic in Dafny:

- **`ftp_client.rs`**:
  - the parser of Unix `LIST` lines and the order listings are shown in;
  - the two session slots of `FtpState` and how every command picks one;
  - connecting and disconnecting;
  - the streaming download loop and the progress events it emits;
  - the single event of an upload;
  - the recursive folder download and the absolute path it starts from.
- **`fs_commands.rs`**:
  - the local directory listing: path defaulting, validation order, the
    collection loop and the sort;
  - the extension handling of the icon lookup.
- **`cloud_client.rs`**:
  - the provider gate and the `"root"` defaults;
  - the Drive search query;
  - the mapping of Drive files to entries;
  - the chunked download loop;
  - the file name an upload gets.
- **`oauth.rs`**: the authorization-code grant of section 4.1 of RFC 6749.
  This covers the authorization request for each provider, how the loopback
  server classifies incoming requests, the empty-code check, and the token
  request.

The outside world enters as method parameters. These include:

- the FTP server's answers to each command, and the remote subtree a folder
  download walks;
- the results of reads and writes;
- the local file system, as a map from paths to nodes;
- the HTTP outcomes of Drive and token requests;
- the requests reaching the loopback server;
- the generated transfer identifier.

Each method reports what the code would send or emit, as an out-parameter:

- the progress events;
- the replies of the loopback server;
- the query, URL, upload request, authorization request or token request it
  sends.

The Rust standard-library behaviour the code depends on is written out in
`text.dfy` and `ordering.dfy`:

- `split_whitespace` over Unicode White_Space;
- `join(" ")`;
- `u64::from_str`, which takes an optional `+`, ASCII digits, and a value
  below 2^64;
- decimal formatting;
- lower-casing;
- the lexicographic order on `String`.

Module layout: `Common` (option, result, HTTP outcome, byte), `Text`, `Ordering`,
`FtpListing`, `FtpTransfer`, `FtpClient` (with the class `FtpState`),
`FsCommands`, `CloudClient`, `OAuth`.

Where the code's behaviour may surprise a reader, the model follows the code:

- A failed `RMD` on the plain session is reported as "Delete genric failed …",
  with the spelling of the code. The secure session says "generic".
- The final "complete" event of a download repeats the progress value of the
  last "downloading" event. Progress is therefore strictly increasing only
  across the "downloading" events.
- `upload_file` opens the local file before it looks at the sessions. With no
  session, a missing local file is reported as a read failure, not as "No
  active FTP connection".

## Model

| member | source | states |
|---|---|---|
| `Text.IsWhitespace` | src-tauri/src/ftp_client.rs:216 | `char::is_whitespace`, the separator of `split_whitespace`: the Unicode White_Space set, which on ASCII is the space and `\t` through `\r` |
| `Text.Fields` | src-tauri/src/ftp_client.rs:216 | `split_whitespace`: every field is non-empty and free of whitespace, and there are no more fields than characters |
| `Text.FieldsSqueeze` | src-tauri/src/ftp_client.rs:216 | for any line, joining the fields with single spaces gives the line with every whitespace run collapsed to one space and both ends trimmed (`Squeeze`, defined character by character) |
| `Text.CollapseAfterWord` | src-tauri/src/ftp_client.rs:216 | after a word, collapsing the rest of a line gives one space before each of its fields |
| `Text.FieldsUnique` | src-tauri/src/ftp_client.rs:216 | the fields are the only split of a line into whitespace-free words whose single-space join is the collapsed line, so they are its maximal runs of non-whitespace, in order |
| `Text.FieldsKeepText` | src-tauri/src/ftp_client.rs:216 | for any line, the fields written one after another are the line with its whitespace removed |
| `Text.FieldsCountWords` | src-tauri/src/ftp_client.rs:216 | for any line, there are exactly as many fields as places where a run of non-whitespace starts |
| `Text.JoinWith` | src-tauri/src/ftp_client.rs:226 | `join`: the parts with the separator between them; the result starts with the first part, followed by the separator when there are more |
| `Text.JoinSnoc` | src-tauri/src/ftp_client.rs:226 | joining one more part appends the separator and that part |
| `Text.FieldsOfJoin` | src-tauri/src/ftp_client.rs:216-226 | splitting the single-space join of whitespace-free tokens with `split_whitespace` gives the tokens back |
| `Text.JoinIsSingleSpaced` | src-tauri/src/ftp_client.rs:224-226 | joining the fields with `" "` leaves no whitespace but single spaces between non-blank characters, so runs of whitespace in a name collapse |
| `Text.ParseU64` | src-tauri/src/ftp_client.rs:223 | a parsed size always fits in a `u64` |
| `Text.ParseOfDecimal` | src-tauri/src/ftp_client.rs:223 | parsing the decimal form of any `u64` gives the number back |
| `Text.DecimalString` | src-tauri/src/ftp_client.rs:811-815 | the decimal form of a number: non-empty ASCII digits, whose value is the number (`DigitsOfDecimal`) |
| `Text.Lower` | src-tauri/src/ftp_client.rs:268 | `to_lowercase` on each character: same length, each character lower-cased |
| `Ordering.LexCompare` | src-tauri/src/ftp_client.rs:268 | `Ord` on `String`, as used on the lower-cased names: equal exactly when the strings are, and a proper prefix sorts first |
| `Ordering.LexAntisymmetric` | src-tauri/src/ftp_client.rs:268 | swapping the strings flips the order, and the order is `Equal` exactly on equal strings |
| `Ordering.LexTransitive` | src-tauri/src/ftp_client.rs:268 | the string order's less-or-equal is transitive |
| `Ordering.Compare` | src-tauri/src/ftp_client.rs:265-269 | the listing comparator: a directory comes before a file whatever the names; entries of the same kind are ordered by their lower-cased names |
| `Ordering.CompareFlips` | src-tauri/src/ftp_client.rs:265-269 | the listing comparator is antisymmetric and total |
| `Ordering.CompareEqual` | src-tauri/src/ftp_client.rs:265-269 | two entries tie exactly when they are of the same kind and their lower-cased names are equal |
| `Ordering.KeyLeTransitive` | src-tauri/src/ftp_client.rs:265-269 | the comparator's "not greater" relation is transitive |
| `Ordering.SortedMeansDirsFirst` | src-tauri/src/ftp_client.rs:265-269 | in a sorted listing every directory comes before every file |
| `Ordering.SortByKey` | src-tauri/src/ftp_client.rs:265-269 | `sort_by` in place leaves the array sorted by the comparator and a permutation of what it held |
| `Ordering.InsertInto` | src-tauri/src/ftp_client.rs:265-269 | one insertion step of the sort: the prefix one element longer is sorted and the array is a permutation of what it held |
| `FtpListing.ParseListLine` | src-tauri/src/ftp_client.rs:212-240 | `parse_list_line`: an entry only for a line with at least nine fields whose name is neither `.` nor `..`, and a directory exactly when the permissions start with `d` |
| `FtpListing.ParseListing` | src-tauri/src/ftp_client.rs:263-264 | the `filter_map` over the lines; never more entries than lines |
| `FtpListing.ParseListingAppend` | src-tauri/src/ftp_client.rs:263-264 | the listing of two runs of lines is the listing of the first followed by that of the second |
| `FtpListing.ParseListingOne` | src-tauri/src/ftp_client.rs:263-264 | a single line lists its entry when it parses, and nothing otherwise |
| `FtpListing.ParsedLineListed` | src-tauri/src/ftp_client.rs:263-264 | no line is skipped and line order is kept: a line that parses puts its entry between the entries of the lines before it and those of the lines after it; a line that does not parse adds nothing |
| `FtpListing.ParseAcceptsExactly` | src-tauri/src/ftp_client.rs:216-231 | a line yields an entry if and only if it has at least nine fields and the name is neither `.` nor `..` |
| `FtpListing.ParsedFields` | src-tauri/src/ftp_client.rs:220-238 | the permissions are field 0 and `is_dir` holds iff they start with `d`; the size is field 4 parsed as `u64`, else 0; the modification time is fields 5-7 and the name fields 8 on, each joined by single spaces |
| `FtpListing.ParsedIsWellFormed` | src-tauri/src/ftp_client.rs:216-238 | every parsed entry is in normal form: one-field permissions, a `u64` size, a three-field time, a single-spaced name other than `.` and `..` |
| `FtpListing.ParseOfFormattedLine` | src-tauri/src/ftp_client.rs:212-240 | parsing the line a Unix server writes for a well-formed entry gives the entry back |
| `FtpListing.ListingEntriesFromLines` | src-tauri/src/ftp_client.rs:263-264 | every entry of a parsed listing is the parse of one of its lines |
| `FtpListing.ListingHasNoDotEntries` | src-tauri/src/ftp_client.rs:229-231 | no listing contains `.` or `..` |
| `FtpListing.AbsoluteRemote` | src-tauri/src/ftp_client.rs:798-805 | an absolute directory is kept; a relative one is appended to the working directory (or `/` when `PWD` fails) with a `/` between them unless the working directory already ends in one |
| `FtpListing.AbsoluteRemoteKeepsParts` | src-tauri/src/ftp_client.rs:798-805 | the resolved path starts with the working directory and ends with the relative name |
| `FtpListing.AbsoluteRemoteIsAbsolute` | src-tauri/src/ftp_client.rs:798-805 | with an absolute working directory the resolved path is absolute |
| `FtpTransfer.BytesCoverChunks` | src-tauri/src/ftp_client.rs:357-380 | the stream delivers at least as many bytes as non-empty chunks |
| `FtpTransfer.DownloadingEventsShape` | src-tauri/src/ftp_client.rs:367-378 | the "downloading" events of a run of chunks: one per chunk, each carrying the running byte count, so strictly increasing and never above the bytes received |
| `FtpTransfer.ReceiveStream` | src-tauri/src/ftp_client.rs:354-380 | the loop fails exactly when a read or write fails, with its error; otherwise `downloaded` is the sum of the chunk lengths; "downloading" events only when the size is known, one per chunk received before the end or the failure, each carrying the bytes received up to and including its chunk, so strictly increasing and ending at `downloaded` |
| `FtpTransfer.PickEntries` | src-tauri/src/ftp_client.rs:678-683 | the entries of the listing lines that parse, each with the subtree its line names; never more than the lines |
| `FtpTransfer.PickEntriesAppend` | src-tauri/src/ftp_client.rs:678-683 | picking from two runs of items picks from the first, then from the second |
| `FtpTransfer.ItemPicked` | src-tauri/src/ftp_client.rs:678-683 | no item is skipped and order is kept: an item whose line parses is picked with its subtree between the picks before and after it; an item whose line does not parse is not picked |
| `FtpTransfer.ChildPath` | src-tauri/src/ftp_client.rs:686 | an entry's remote path: the directory followed by `/`, then the entry's name, which can be read back after that prefix |
| `FtpTransfer.FolderDownload` | src-tauri/src/ftp_client.rs:655-718 | the files the walk of a subtree saves, or its first failure; a walk succeeds only on a directory |
| `FtpTransfer.EntriesDownload` | src-tauri/src/ftp_client.rs:685-717 | the first `n` passes of the entries loop: their saved files in order, or the first failure; on success every one of those entries succeeded |
| `FtpTransfer.EntryDownload` | src-tauri/src/ftp_client.rs:686-714 | one pass: a directory entry is walked at `remote_dir/name`; a file entry succeeds only on a plain file and saves exactly that one file |
| `FtpTransfer.PickedFromItem` | src-tauri/src/ftp_client.rs:678-683 | every collected entry is the parse of one listing line, kept with what that line names |
| `FtpTransfer.PickedSmaller` | src-tauri/src/ftp_client.rs:678-691 | every collected entry names a strictly smaller subtree and is neither `.` nor `..`, so the walk of the model's finite tree ends |
| `FtpTransfer.FailureSticks` | src-tauri/src/ftp_client.rs:685-714 | the first failing entry decides the result: the `?` stops the loop |
| `FtpTransfer.SavedBelow` | src-tauri/src/ftp_client.rs:686-691 | every file saved while walking `remote_dir` has a path below `remote_dir + "/"` |
| `FtpTransfer.EntriesBelow` | src-tauri/src/ftp_client.rs:685-714 | the same for the files saved by the first `n` entries |
| `FtpTransfer.SavedBytesAreTreeBytes` | src-tauri/src/ftp_client.rs:676-717 | a walk that succeeds saves exactly the bytes of all files in the subtree, whatever path it starts from |
| `FtpTransfer.CollectEntries` | src-tauri/src/ftp_client.rs:678-683 | the push loop collects the parsable lines' entries, in order |
| `FtpTransfer.FetchEntry` | src-tauri/src/ftp_client.rs:685-714 | one entry recurses into a directory at `remote_dir/name` or retrieves a file, adding its bytes |
| `FtpTransfer.RecursiveDownload` | src-tauri/src/ftp_client.rs:655-718 | the walk returns the first failure's message, or the files of the subtree with `total_bytes` their summed size |
| `FtpTransfer.FetchEntries` | src-tauri/src/ftp_client.rs:685-717 | the `for entry in entries` loop stops at the first failing entry and returns its message; otherwise it returns the files of all entries with `total_bytes` their summed size |
| `FtpClient.ActiveSession` | src-tauri/src/ftp_client.rs:249-299 | the session used is the secure one if present, else the plain one; with neither, "No active FTP connection" |
| `FtpClient.ConnectedSlots` | src-tauri/src/ftp_client.rs:106-174 | a new session takes the slot its TLS flag selects, and the other slot is kept |
| `FtpClient.DisconnectSlots` | src-tauri/src/ftp_client.rs:179-201 | disconnect fails with "No active connection" exactly when both slots are empty, changing nothing; otherwise it clears the secure slot if occupied, else the plain one, and says which |
| `FtpClient.DisconnectClosesActive` | src-tauri/src/ftp_client.rs:179-201 | disconnecting clears exactly one slot, the one the commands use, leaves the other alone, and fails only when both are empty |
| `FtpClient.DisconnectTwiceEmpties` | src-tauri/src/ftp_client.rs:179-201 | two disconnects leave no session |
| `FtpClient.ConnectedIsActive` | src-tauri/src/ftp_client.rs:100-176 | a new session becomes the active one, except a plain session opened while a secure one is held |
| `FtpClient.ConnectThenDisconnect` | src-tauri/src/ftp_client.rs:100-201 | disconnecting right after connecting closes the new session |
| `FtpClient.LoginPassword` | src-tauri/src/ftp_client.rs:144 | the password sent at login is empty exactly when none is configured or the configured one is empty |
| `FtpClient.HostPort` | src-tauri/src/ftp_client.rs:104 | the address dialled is the host, a colon, and the port in decimal |
| `FtpClient.FtpState.constructor` | src-tauri/src/ftp_client.rs:72-79 | both slots start empty |
| `FtpClient.FtpState.Connect` | src-tauri/src/ftp_client.rs:100-176 | each failing step gives its own message and leaves the slots unchanged; success stores the session in the secure or the plain slot and reports it |
| `FtpClient.FtpState.Disconnect` | src-tauri/src/ftp_client.rs:179-201 | the secure slot is cleared if occupied, else the plain one; the result names which, or errs when both are empty |
| `FtpClient.FtpState.ListRemoteDirectory` | src-tauri/src/ftp_client.rs:243-300 | the `CWD` (only when a path is given) and `LIST` failures are reported; otherwise the result is a permutation of the parsed lines, sorted directories first, then by lower-cased name |
| `FtpClient.FtpState.GetRemotePwd` | src-tauri/src/ftp_client.rs:303-319 | the working directory, or "PWD failed: …", or no session |
| `FtpClient.FtpState.DownloadRemoteFile` | src-tauri/src/ftp_client.rs:322-464 | every event carries "dl-" + id, the file name and the known size; each failure is reported in order; each "downloading" event carries the bytes received so far, and none is sent on any path when the size is unknown; on success exactly one final "complete" event, carrying the byte count and so repeating the last progress, follows them; after a stream or finalize failure, exactly one "downloading" event per chunk received before it when the size is known |
| `FtpClient.FtpState.UploadFile` | src-tauri/src/ftp_client.rs:467-534 | the local file is opened before any session is looked at; on success exactly one "complete" event with progress and total both the file's length and an id "ul-" + id; no event on failure |
| `FtpClient.FtpState.DeleteRemoteFile` | src-tauri/src/ftp_client.rs:537-564 | "Deleted file: path", "Delete failed: …", or no session |
| `FtpClient.FtpState.DeleteRemoteDir` | src-tauri/src/ftp_client.rs:567-594 | "Deleted directory: path", or a failure worded per slot, or no session |
| `FtpClient.FtpState.RenameRemoteFile` | src-tauri/src/ftp_client.rs:597-625 | "Renamed a to b", "Rename failed: …", or no session |
| `FtpClient.FtpState.CreateRemoteDir` | src-tauri/src/ftp_client.rs:628-652 | "Created directory: path", "Mkdir failed: …", or no session |
| `FtpClient.FtpState.DownloadRemoteFolder` | src-tauri/src/ftp_client.rs:787-843 | the walk starts at the resolved absolute path; its failure is returned, or the message reports the bytes of the whole subtree |
| `FsCommands.ResolvePath` | src-tauri/src/fs_commands.rs:14-18 | an empty path becomes the home directory, or `C:\` without one; any other path is used as given |
| `FsCommands.ResolveIdempotent` | src-tauri/src/fs_commands.rs:14-18 | the resolved path is never empty and resolves to itself |
| `FsCommands.EntryOf` | src-tauri/src/fs_commands.rs:32-41 | an item keeps its name and path; without metadata it is a file of size 0 |
| `FsCommands.Collect` | src-tauri/src/fs_commands.rs:29-45 | the entries of the items `flatten` keeps, in order; never more than the items |
| `FsCommands.CollectListsReadable` | src-tauri/src/fs_commands.rs:31-42 | every readable item is listed and every listed entry comes from a readable item |
| `FsCommands.CollectLength` | src-tauri/src/fs_commands.rs:31-42 | one entry per item `flatten` keeps |
| `FsCommands.CollectEntries` | src-tauri/src/fs_commands.rs:27-45 | the push loop produces the collected entries |
| `FsCommands.ListDirectory` | src-tauri/src/fs_commands.rs:13-55 | a missing path is reported before a non-directory, then a read failure; otherwise the result is a permutation of the collected entries, directories first, then by lower-cased name |
| `FsCommands.GetHomeDir` | src-tauri/src/fs_commands.rs:58-62 | the home directory, or "Could not determine home directory" |
| `FsCommands.NormalizeExtension` | src-tauri/src/fs_commands.rs:70-76 | fails exactly on the empty extension; otherwise starts with a dot and ends with the extension, at most one character longer |
| `FsCommands.NormalizeIdempotent` | src-tauri/src/fs_commands.rs:70-76 | normalising a normalised extension gives it back |
| `FsCommands.NormalizeAddsAtMostOneDot` | src-tauri/src/fs_commands.rs:70-76 | the result is the extension, or a dot followed by an extension that did not start with one |
| `FsCommands.GetFileIcon` | src-tauri/src/fs_commands.rs:65-86 | succeeds exactly when the extension normalises and the icon lookup succeeds; a success is `data:image/png;base64,` followed by the encoded icon; the empty extension and icon failures are reported |
| `CloudClient.IsGoogle` | src-tauri/src/cloud_client.rs:34 | the provider gate shared by all three cloud commands: only `"google"` passes |
| `CloudClient.ParentOrRoot` | src-tauri/src/cloud_client.rs:39 | a missing parent is `"root"` |
| `CloudClient.ListingQuery` | src-tauri/src/cloud_client.rs:42 | the query is the quoted parent followed by the trashed filter |
| `CloudClient.QueryNamesParent` | src-tauri/src/cloud_client.rs:42 | the parent can be read back out of the query |
| `CloudClient.QueryInjective` | src-tauri/src/cloud_client.rs:42 | different parents give different queries |
| `CloudClient.MapDriveFile` | src-tauri/src/cloud_client.rs:71-84 | name and time are copied and the id is always present; a folder iff the folder MIME type; a size iff the size string parses as `u64` |
| `CloudClient.MappedSizeOfDecimal` | src-tauri/src/cloud_client.rs:75 | a size reported as a decimal `u64` comes through unchanged |
| `CloudClient.ListCloudDirectory` | src-tauri/src/cloud_client.rs:29-87 | a provider other than google fails before any request; the query names the parent or root; each failure has its message; the entries map the files one to one, in order |
| `CloudClient.WrittenStopsAtFailure` | src-tauri/src/cloud_client.rs:121-129 | nothing after a failed read or write reaches the file |
| `CloudClient.Written` | src-tauri/src/cloud_client.rs:121-129 | the bytes the loop writes to the local file: a first chunk that was written starts the file; a failing first step leaves it empty |
| `CloudClient.ChunkFailure` | src-tauri/src/cloud_client.rs:121-129 | the message the loop ends with; there is none exactly when every read and write succeeded |
| `CloudClient.WrittenAppends` | src-tauri/src/cloud_client.rs:121-129 | without failures the file receives the chunks in order |
| `CloudClient.FailureAfterClean` | src-tauri/src/cloud_client.rs:121-129 | after chunks that were all written, the outcome is decided by the steps that follow |
| `CloudClient.DownloadUrl` | src-tauri/src/cloud_client.rs:100-103 | the download URL is the Drive files endpoint, then the file id, then `?alt=media`; the id can be read back from between them |
| `CloudClient.DownloadUrlInjective` | src-tauri/src/cloud_client.rs:100-103 | different files are fetched from different URLs |
| `CloudClient.DownloadCloudFile` | src-tauri/src/cloud_client.rs:90-132 | the provider gate comes first; each failure has its message; the file receives the chunks read before the loop ends |
| `CloudClient.LastSlash` | src-tauri/src/cloud_client.rs:153-156 | the index of the last `/` in a path, or -1 when there is none; no `/` follows it |
| `CloudClient.SplitSlash` | src-tauri/src/cloud_client.rs:153-156 | the pieces of a path between its `/` separators: at least one, none holding a `/` |
| `CloudClient.SplitSlashJoins` | src-tauri/src/cloud_client.rs:153-156 | joining the pieces with `/` gives the path back |
| `CloudClient.Named` | src-tauri/src/cloud_client.rs:153-156 | the pieces a path's components keep as names: each one is a piece of the path, never empty and never `.` |
| `CloudClient.FileName` | src-tauri/src/cloud_client.rs:153-156 | a file name is never empty, `.` or `..` |
| `CloudClient.FileNameOfChild` | src-tauri/src/cloud_client.rs:153-156 | a path ending in `/name` has file name `name` |
| `CloudClient.FileNameOfName` | src-tauri/src/cloud_client.rs:153-156 | a bare name is its own file name |
| `CloudClient.NoFileName` | src-tauri/src/cloud_client.rs:153-156 | a path ending in `/..`, and the root, have none |
| `CloudClient.UploadFileName` | src-tauri/src/cloud_client.rs:153-156 | the upload name is the path's file name, or `unknown_file` |
| `CloudClient.UploadCloudFile` | src-tauri/src/cloud_client.rs:135-200 | the gate, open, metadata and read failures come in that order and send nothing; otherwise the request carries the file name, the parent or root, and the contents |
| `OAuth.RedirectUri` | src-tauri/src/oauth.rs:29-30 | the redirect URI is `http://localhost:3456/oauth/callback` |
| `OAuth.IsSupported` | src-tauri/src/oauth.rs:33-55 | the providers with a match arm: `"google"` and `"dropbox"` |
| `OAuth.CommonAuthParams` | src-tauri/src/oauth.rs:35-51 | the parameters both authorization requests begin with: looking them up gives the client id, the redirect URI and `response_type=code` |
| `OAuth.AuthorizationRequest` | src-tauri/src/oauth.rs:33-55 | google and dropbox get their endpoints and parameter lists, in order; any other provider is refused |
| `OAuth.Lookup` | src-tauri/src/oauth.rs:73 | looking a key up in the map the query pairs collect into; a value found is carried by some pair with that key |
| `OAuth.LookupFindsKey` | src-tauri/src/oauth.rs:73 | collecting the query pairs into a map finds a key exactly when some pair carries it |
| `OAuth.LookupIsLast` | src-tauri/src/oauth.rs:73 | the value found is the one of the last pair carrying the key |
| `OAuth.AuthRequestRedirect` | src-tauri/src/oauth.rs:35-52 | the authorization request carries the client id, `response_type=code` and the same redirect URI as the token request |
| `OAuth.Classify` | src-tauri/src/oauth.rs:71-95 | on the callback path an `error` parameter denies even when `code` is present; otherwise a `code` grants; anything else is ignored |
| `OAuth.CallbackResult` | src-tauri/src/oauth.rs:66-100 | the outcome of the request loop; a denial or a captured code has the browser's last reply be the failure or the success page |
| `OAuth.Replies` | src-tauri/src/oauth.rs:66-96 | the replies the loopback server sends; at most one per request, and the first request always gets one |
| `OAuth.FirstDecidingRequest` | src-tauri/src/oauth.rs:66-96 | a denial or a captured code comes from a request before which every request was ignored |
| `OAuth.IgnoredRequestsSkipped` | src-tauri/src/oauth.rs:69-96 | requests that are not the callback only get a 404 and change nothing |
| `OAuth.RepliesShape` | src-tauri/src/oauth.rs:69-96 | every reply but the last is a 404; a denial ends with the failure page |
| `OAuth.AwaitCallback` | src-tauri/src/oauth.rs:66-96 | the loop's result and replies are those of the first request that is not ignored |
| `OAuth.TokenEndpoint` | src-tauri/src/oauth.rs:103-107 | google's and dropbox's token endpoints |
| `OAuth.TokenParams` | src-tauri/src/oauth.rs:110-115 | the form has exactly the five keys: the client id and secret, the code, `grant_type=authorization_code` and the redirect URI |
| `OAuth.TokenOutcome` | src-tauri/src/oauth.rs:117-138 | a failed send, an unsuccessful status and an undecodable body each have their message; decoded tokens are returned as they are |
| `OAuth.StartOAuthFlow` | src-tauri/src/oauth.rs:23-139 | an unsupported provider fails before the browser opens; browser, server, provider-error, empty-code and token failures each have their message; the token request goes to the provider's endpoint with the captured code |

## Left out

- TLS set-up and its certificate verifier (`ftp_client.rs` lines 12-59 and 114-133): foreign crypto library calls; the verifier accepts every certificate.
- Actual I/O: FTP control and data connections, HTTP, the loopback server, the browser and file creation. Their outcomes are parameters.
- Concurrency: the `tokio` mutexes and async suspension. `FtpState` is two plain optional slots.
- Serde/JSON, base64, `uuid`, URL parsing and percent-encoding, and the icon library: opaque, or given as parameters.
- Integer widths: byte counters and sizes are unbounded. `u64` overflow of `downloaded` and `total_bytes`, and the `usize` to `u64` cast of the `SIZE` reply, are not modelled.
- Lower-casing covers ASCII letters only, not Unicode case folding.
- `Ordering.SortByKey`: proved sorted and a permutation. The stability of `sort_by` (equal keys keep their order) is not stated.
- `CloudClient.FileName`: `/` is the only separator (Unix `Path` semantics). Windows prefixes and `\` are not modelled, nor non-UTF-8 names.
- `FtpTransfer.RecursiveDownload`: these failures are not modelled:
  - creating the local directory;
  - `LIST` inside the walk;
  - reading, finalising or saving a retrieved file;
  - changing back into `remote_dir` after a subdirectory.

  The server's replies when the client changes into a file or retrieves a directory are model constants ("550 Not a directory", "550 Not a regular file").
- `FtpTransfer.FolderDownload`: the remote subtree is finite and acyclic. A server whose listings lead back to an ancestor, such as a link to a parent shown as a directory, makes the code recurse without end until a command fails; the model cannot express that case.
- `FtpClient.FtpState.DownloadRemoteFolder`: the `CWD` back to the original directory is ignored, as the code ignores its result. The local directory argument is not modelled.
- `CloudClient.DownloadCloudFile`: a partially written chunk before a write failure is not modelled. Each chunk is written whole or not at all.
- The bearer token and its `trim` in the Drive and token requests: only headers, no logic.
- `config.rs` and `lib.rs` are not part of this model: a JSON settings file and Tauri wiring.
- The front end's lazy tree and transfer map are not part of this model.
