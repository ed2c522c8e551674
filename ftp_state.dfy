/** The FTP commands of `ftp_client.rs` over `FtpState`, the pair of session
    slots the backend keeps: one for a plain session, one for a TLS session.
    Every command uses the secure slot when it holds a session, else the plain
    slot, else fails with "No active FTP connection". What the server answers to
    each FTP command is a parameter of the method that sends it. */
module FtpClient {
  import opened Common
  import opened Text
  import opened Ordering
  import opened FtpListing
  import opened FtpTransfer

  /** A logged-in session: the `host:port` it was opened to, the user it logged
      in as, and whether it was upgraded to TLS. */
  datatype Session = Session(address: string, user: string, secure: bool)

  /** The two slots of `FtpState`, as a value. */
  datatype Slots = Slots(plain: Option<Session>, secure: Option<Session>)

  const NoActiveConnection: string := "No active FTP connection"

  /** The session every command uses: secure first, then plain. */
  function ActiveSession(s: Slots): (r: Result<Session>)
    ensures r.Ok? <==> s.secure.Some? || s.plain.Some?
    ensures r.Ok? ==> Some(r.value) == s.secure || (s.secure.None? && Some(r.value) == s.plain)
    ensures r.Err? ==> r.error == NoActiveConnection
  {
    match s.secure
    case Some(x) => Ok(x)
    case None =>
      match s.plain
      case Some(x) => Ok(x)
      case None => Err(NoActiveConnection)
  }

  /** The number of occupied slots. */
  function Occupied(s: Slots): nat
  {
    (if s.plain.Some? then 1 else 0) + (if s.secure.Some? then 1 else 0)
  }

  /** The slots after a successful `connect_ftp` opened session `x`: it goes into
      the secure slot when it is a TLS session, else into the plain slot,
      replacing whatever was there. */
  function ConnectedSlots(s: Slots, x: Session): (t: Slots)
    ensures x.secure ==> t == Slots(s.plain, Some(x))
    ensures !x.secure ==> t == Slots(Some(x), s.secure)
  {
    if x.secure then s.(secure := Some(x)) else s.(plain := Some(x))
  }

  /** `disconnect_ftp` on the slots: the new slots and the command's result. */
  function DisconnectSlots(s: Slots): (tr: (Slots, Result<string>))
    ensures tr.1.Err? <==> s.secure.None? && s.plain.None?
    ensures tr.1.Err? ==> tr.0 == s && tr.1.error == "No active connection"
    ensures s.secure.Some? ==> tr == (Slots(s.plain, None), Ok("Disconnected secure session"))
    ensures s.secure.None? && s.plain.Some? ==> tr == (Slots(None, None), Ok("Disconnected plain session"))
  {
    if s.secure.Some? then (s.(secure := None), Ok("Disconnected secure session"))
    else if s.plain.Some? then (s.(plain := None), Ok("Disconnected plain session"))
    else (s, Err("No active connection"))
  }

  /** `disconnect_ftp` closes exactly the session the other commands would use,
      leaves the other slot alone, and fails only when there is nothing to close. */
  lemma DisconnectClosesActive(s: Slots)
    ensures var (t, r) := DisconnectSlots(s);
      && (r.Err? <==> ActiveSession(s).Err?)
      && (r.Err? ==> t == s)
      && (r.Ok? ==> Occupied(t) == Occupied(s) - 1)
      && (r.Ok? && s.secure.Some? ==> t == Slots(s.plain, None))
      && (r.Ok? && s.secure.None? ==> t == Slots(None, None))
  {
  }

  /** Two disconnects leave no session, whatever the slots held. */
  lemma {:induction false} DisconnectTwiceEmpties(s: Slots)
    ensures ActiveSession(DisconnectSlots(DisconnectSlots(s).0).0).Err?
  {
    var t := DisconnectSlots(s).0;
    assert t.secure.None?;
    assert Occupied(t) <= 1;
  }

  /** A new session becomes the active one, except that a plain session opened
      while a secure one is held stays unused. */
  lemma ConnectedIsActive(s: Slots, x: Session)
    ensures x.secure || s.secure.None? ==> ActiveSession(ConnectedSlots(s, x)) == Ok(x)
    ensures !x.secure && s.secure.Some? ==> ActiveSession(ConnectedSlots(s, x)) == ActiveSession(s)
  {
  }

  /** Disconnecting right after connecting closes the new session again, and
      only it when it went into the secure slot. */
  lemma ConnectThenDisconnect(s: Slots, x: Session)
    ensures x.secure ==> DisconnectSlots(ConnectedSlots(s, x)) == (Slots(s.plain, None), Ok("Disconnected secure session"))
    ensures !x.secure && s.secure.None? ==> DisconnectSlots(ConnectedSlots(s, x)) == (Slots(None, None), Ok("Disconnected plain session"))
    ensures !x.secure && s.secure.Some? ==> DisconnectSlots(ConnectedSlots(s, x)).0 == Slots(Some(x), None)
  {
  }

  /** `FtpConfigPayload`; `port` is a `u16`. */
  datatype FtpConfig = FtpConfig(host: string, port: nat, username: string, password: Option<string>, secure: bool)

  /** The address `connect_ftp` dials: the host, a colon, and the port in decimal. */
  function HostPort(config: FtpConfig): (r: string)
    ensures IsPrefix(config.host + ":", r)
    ensures r[|config.host| + 1..] == DecimalString(config.port)
  {
    config.host + ":" + DecimalString(config.port)
  }

  /** The password sent at login: the given one, or the empty string. */
  function LoginPassword(config: FtpConfig): (p: string)
    ensures p == "" <==> config.password.None? || config.password.value == ""
  {
    OptionOr(config.password, "")
  }

  /** What the server answers to the steps of `connect_ftp`: an error opening the
      control connection, an error in the TLS upgrade, and its answer (an error
      or none) to a login with a user name and password. */
  datatype FtpServer = FtpServer(
    connectError: Option<string>,
    tlsError: Option<string>,
    login: (string, string) -> Option<string>)

  class FtpState {
    var client: Option<Session>
    var secureClient: Option<Session>

    function Current(): Slots
      reads this
    {
      Slots(client, secureClient)
    }

    /** `FtpState::default()`: no session in either slot. */
    constructor()
      ensures client == None && secureClient == None
      ensures ActiveSession(Current()).Err?
    {
      client := None;
      secureClient := None;
    }

    /** `connect_ftp`: connect, upgrade to TLS when asked, log in, then store the
        session in the slot for its kind. Any failure leaves both slots as they
        were. */
    method Connect(config: FtpConfig, server: FtpServer) returns (r: Result<string>)
      modifies this
      ensures var x := Session(HostPort(config), config.username, config.secure);
        var loginError := server.login(config.username, LoginPassword(config));
        && (server.connectError.Some? ==>
              r == Err("Connection failed: " + server.connectError.value))
        && (server.connectError.None? && config.secure && server.tlsError.Some? ==>
              r == Err("TLS upgrade failed: " + server.tlsError.value))
        && (server.connectError.None? && config.secure && server.tlsError.None? && loginError.Some? ==>
              r == Err("Secure Login failed: " + loginError.value))
        && (server.connectError.None? && !config.secure && loginError.Some? ==>
              r == Err("Login failed: " + loginError.value))
        && (r.Ok? <==> server.connectError.None? && (config.secure ==> server.tlsError.None?) && loginError.None?)
        && (r.Ok? && config.secure ==> r.value == "Securely connected to " + config.host)
        && (r.Ok? && !config.secure ==> r.value == "Connected to " + config.host)
        && (r.Ok? ==> Current() == ConnectedSlots(old(Current()), x))
        && (r.Err? ==> Current() == old(Current()))
    {
      if server.connectError.Some? {
        return Err("Connection failed: " + server.connectError.value);
      }
      var session := Session(HostPort(config), config.username, config.secure);
      if config.secure {
        if server.tlsError.Some? {
          return Err("TLS upgrade failed: " + server.tlsError.value);
        }
        var loginError := server.login(config.username, LoginPassword(config));
        if loginError.Some? {
          return Err("Secure Login failed: " + loginError.value);
        }
        secureClient := Some(session);
        r := Ok("Securely connected to " + config.host);
      } else {
        var loginError := server.login(config.username, LoginPassword(config));
        if loginError.Some? {
          return Err("Login failed: " + loginError.value);
        }
        client := Some(session);
        r := Ok("Connected to " + config.host);
      }
    }

    /** `disconnect_ftp`: quit and clear the secure slot if it holds a session,
        else the plain slot; fail when both are empty. */
    method Disconnect() returns (r: Result<string>)
      modifies this
      ensures old(secureClient).Some? ==>
        secureClient == None && client == old(client) && r == Ok("Disconnected secure session")
      ensures old(secureClient).None? && old(client).Some? ==>
        secureClient == None && client == None && r == Ok("Disconnected plain session")
      ensures old(secureClient).None? && old(client).None? ==>
        secureClient == None && client == None && r == Err("No active connection")
      ensures (Current(), r) == DisconnectSlots(old(Current()))
    {
      if secureClient.Some? {
        secureClient := None;
        return Ok("Disconnected secure session");
      }
      if client.Some? {
        client := None;
        return Ok("Disconnected plain session");
      }
      r := Err("No active connection");
    }

    /** `list_remote_directory`: change into `path` when one is given, `LIST`, keep
        the lines that parse, and sort them directories first, then by
        lower-cased name. `cwdError` and `listing` are the server's answers. */
    method ListRemoteDirectory(path: Option<string>, cwdError: Option<string>, listing: Result<seq<string>>)
      returns (r: Result<seq<RemoteFileEntry>>)
      ensures ActiveSession(Current()).Err? ==> r == Err(NoActiveConnection)
      ensures ActiveSession(Current()).Ok? && path.Some? && cwdError.Some? ==>
        r == Err("CWD failed: " + cwdError.value)
      ensures ActiveSession(Current()).Ok? && (path.None? || cwdError.None?) && listing.Err? ==>
        r == Err("LIST failed: " + listing.error)
      ensures ActiveSession(Current()).Ok? && (path.None? || cwdError.None?) && listing.Ok? ==>
        r.Ok? && IsSortedListing(listing.value, r.value)
    {
      if ActiveSession(Current()).Err? {
        return Err(NoActiveConnection);
      }
      if path.Some? && cwdError.Some? {
        return Err("CWD failed: " + cwdError.value);
      }
      if listing.Err? {
        return Err("LIST failed: " + listing.error);
      }
      var parsed := ParseListing(listing.value);
      var entries := new RemoteFileEntry[|parsed|](i requires 0 <= i < |parsed| => parsed[i]);
      assert entries[..] == parsed;
      SortByKey(entries, RemoteKey);
      r := Ok(entries[..]);
    }

    /** `get_remote_pwd`. */
    method GetRemotePwd(pwd: Result<string>) returns (r: Result<string>)
      ensures ActiveSession(Current()).Err? ==> r == Err(NoActiveConnection)
      ensures ActiveSession(Current()).Ok? && pwd.Err? ==> r == Err("PWD failed: " + pwd.error)
      ensures ActiveSession(Current()).Ok? && pwd.Ok? ==> r == pwd
    {
      if ActiveSession(Current()).Err? {
        return Err(NoActiveConnection);
      }
      if pwd.Err? {
        return Err("PWD failed: " + pwd.error);
      }
      r := pwd;
    }

    /** `download_remote_file`. `uuid` is the generated transfer identifier;
        `size` is the answer to `SIZE` (none when it fails); `retrError`,
        `createError` and `finalizeError` are the outcomes of opening the data
        stream, creating the local file and closing the stream; `steps` are the
        reads of the stream. */
    method DownloadRemoteFile(uuid: string, remoteName: string, size: Option<nat>,
                              retrError: Option<string>, createError: Option<string>,
                              steps: seq<StreamStep>, finalizeError: Option<string>)
      returns (r: Result<string>, events: seq<TransferProgress>)
      ensures forall k :: 0 <= k < |events| ==>
        && events[k].transferId == "dl-" + uuid
        && events[k].filename == remoteName
        && events[k].total == OptionOr(size, 0)
      ensures forall k, l :: 0 <= k < l < |events| ==> events[k].progress <= events[l].progress
      ensures forall k, l :: 0 <= k < l < |events| && events[l].status == Downloading ==>
        events[k].progress < events[l].progress
      ensures ActiveSession(Current()).Err? ==> r == Err(NoActiveConnection) && events == []
      ensures ActiveSession(Current()).Ok? && retrError.Some? ==>
        r == Err("Download failed: " + retrError.value) && events == []
      ensures ActiveSession(Current()).Ok? && retrError.None? && createError.Some? ==>
        r == Err("Capture failed: " + createError.value) && events == []
      ensures ActiveSession(Current()).Ok? && retrError.None? && createError.None? ==>
        && (StreamFailure(steps).Some? ==> r == Err(StreamFailure(steps).value))
        && (StreamFailure(steps).None? && finalizeError.Some? ==> r == Err("Finalize failed: " + finalizeError.value))
      ensures r.Err? ==> forall k :: 0 <= k < |events| ==> events[k].status == Downloading
      ensures OptionOr(size, 0) == 0 ==> forall k :: 0 <= k < |events| ==> events[k].status == Complete
      ensures forall k :: 0 <= k < |events| && events[k].status == Downloading ==>
        k < |steps| && events[k].progress == StreamBytes(steps[..k + 1])
      ensures r.Ok? && |events| > 1 ==> events[|events| - 2].progress == events[|events| - 1].progress
      ensures ActiveSession(Current()).Ok? && retrError.None? && createError.None? && r.Err? ==>
        |events| == (if OptionOr(size, 0) > 0 then ChunkCount(steps) else 0)
      ensures r.Ok? <==> ActiveSession(Current()).Ok? && retrError.None? && createError.None?
                         && StreamFailure(steps).None? && finalizeError.None?
      ensures r.Ok? ==>
        && r.value == "Downloaded " + remoteName
        && |events| == (if OptionOr(size, 0) > 0 then ChunkCount(steps) else 0) + 1
        && events[|events| - 1].status == Complete
        && events[|events| - 1].progress == StreamBytes(steps)
        && forall k :: 0 <= k < |events| - 1 ==> events[k].status == Downloading
    {
      var transferId := "dl-" + uuid;
      events := [];
      if ActiveSession(Current()).Err? {
        return Err(NoActiveConnection), events;
      }
      var totalSize := OptionOr(size, 0);
      if retrError.Some? {
        return Err("Download failed: " + retrError.value), events;
      }
      if createError.Some? {
        return Err("Capture failed: " + createError.value), events;
      }
      var received;
      received, events := ReceiveStream(transferId, remoteName, totalSize, steps);
      if received.Err? {
        return Err(received.error), events;
      }
      if finalizeError.Some? {
        return Err("Finalize failed: " + finalizeError.value), events;
      }
      var downloaded := received.value;
      BytesCoverChunks(steps);
      events := events + [TransferProgress(transferId, remoteName, downloaded, totalSize, Complete)];
      r := Ok("Downloaded " + remoteName);
    }

    /** `upload_file`. The local file is opened before any session is looked at;
        `openError`, `metadata` (the file's length) and `readError` are the local
        file system's answers, `putError` the server's. */
    method UploadFile(uuid: string, remoteName: string, openError: Option<string>,
                      metadata: Result<nat>, readError: Option<string>, putError: Option<string>)
      returns (r: Result<string>, events: seq<TransferProgress>)
      ensures openError.Some? ==> r == Err("Read failed: " + openError.value)
      ensures openError.None? && metadata.Err? ==> r == Err(metadata.error)
      ensures openError.None? && metadata.Ok? && ActiveSession(Current()).Err? ==> r == Err(NoActiveConnection)
      ensures openError.None? && metadata.Ok? && ActiveSession(Current()).Ok? && readError.Some? ==>
        r == Err(readError.value)
      ensures openError.None? && metadata.Ok? && ActiveSession(Current()).Ok? && readError.None? && putError.Some? ==>
        r == Err("Upload failed: " + putError.value)
      ensures r.Ok? <==> openError.None? && metadata.Ok? && ActiveSession(Current()).Ok?
                         && readError.None? && putError.None?
      ensures r.Ok? ==> && r.value == "Uploaded " + remoteName
                        && events == [TransferProgress("ul-" + uuid, remoteName, metadata.value, metadata.value, Complete)]
      ensures r.Err? ==> events == []
    {
      var transferId := "ul-" + uuid;
      events := [];
      if openError.Some? {
        return Err("Read failed: " + openError.value), events;
      }
      if metadata.Err? {
        return Err(metadata.error), events;
      }
      var totalSize := metadata.value;
      if ActiveSession(Current()).Err? {
        return Err(NoActiveConnection), events;
      }
      if readError.Some? {
        return Err(readError.value), events;
      }
      if putError.Some? {
        return Err("Upload failed: " + putError.value), events;
      }
      events := [TransferProgress(transferId, remoteName, totalSize, totalSize, Complete)];
      r := Ok("Uploaded " + remoteName);
    }

    /** `delete_remote_file`; `rmError` is the server's answer to `DELE`. */
    method DeleteRemoteFile(path: string, rmError: Option<string>) returns (r: Result<string>)
      ensures ActiveSession(Current()).Err? ==> r == Err(NoActiveConnection)
      ensures ActiveSession(Current()).Ok? && rmError.Some? ==> r == Err("Delete failed: " + rmError.value)
      ensures ActiveSession(Current()).Ok? && rmError.None? ==> r == Ok("Deleted file: " + path)
    {
      if ActiveSession(Current()).Err? {
        return Err(NoActiveConnection);
      }
      if rmError.Some? {
        return Err("Delete failed: " + rmError.value);
      }
      r := Ok("Deleted file: " + path);
    }

    /** `delete_remote_dir`; `rmdirError` is the server's answer to `RMD`. The two
        slots word the failure differently. */
    method DeleteRemoteDir(path: string, rmdirError: Option<string>) returns (r: Result<string>)
      ensures ActiveSession(Current()).Err? ==> r == Err(NoActiveConnection)
      ensures secureClient.Some? && rmdirError.Some? ==>
        r == Err("Delete generic failed (directory must be empty): " + rmdirError.value)
      ensures secureClient.None? && client.Some? && rmdirError.Some? ==>
        r == Err("Delete genric failed (directory must be empty): " + rmdirError.value)
      ensures ActiveSession(Current()).Ok? && rmdirError.None? ==> r == Ok("Deleted directory: " + path)
    {
      if secureClient.Some? {
        if rmdirError.Some? {
          return Err("Delete generic failed (directory must be empty): " + rmdirError.value);
        }
        return Ok("Deleted directory: " + path);
      }
      if client.Some? {
        if rmdirError.Some? {
          return Err("Delete genric failed (directory must be empty): " + rmdirError.value);
        }
        return Ok("Deleted directory: " + path);
      }
      r := Err(NoActiveConnection);
    }

    /** `rename_remote_file`; `renameError` is the server's answer to `RNFR`/`RNTO`. */
    method RenameRemoteFile(oldPath: string, newPath: string, renameError: Option<string>)
      returns (r: Result<string>)
      ensures ActiveSession(Current()).Err? ==> r == Err(NoActiveConnection)
      ensures ActiveSession(Current()).Ok? && renameError.Some? ==> r == Err("Rename failed: " + renameError.value)
      ensures ActiveSession(Current()).Ok? && renameError.None? ==> r == Ok("Renamed " + oldPath + " to " + newPath)
    {
      if ActiveSession(Current()).Err? {
        return Err(NoActiveConnection);
      }
      if renameError.Some? {
        return Err("Rename failed: " + renameError.value);
      }
      r := Ok("Renamed " + oldPath + " to " + newPath);
    }

    /** `create_remote_dir`; `mkdirError` is the server's answer to `MKD`. */
    method CreateRemoteDir(path: string, mkdirError: Option<string>) returns (r: Result<string>)
      ensures ActiveSession(Current()).Err? ==> r == Err(NoActiveConnection)
      ensures ActiveSession(Current()).Ok? && mkdirError.Some? ==> r == Err("Mkdir failed: " + mkdirError.value)
      ensures ActiveSession(Current()).Ok? && mkdirError.None? ==> r == Ok("Created directory: " + path)
    {
      if ActiveSession(Current()).Err? {
        return Err(NoActiveConnection);
      }
      if mkdirError.Some? {
        return Err("Mkdir failed: " + mkdirError.value);
      }
      r := Ok("Created directory: " + path);
    }

    /** `download_remote_folder`: resolve `remoteDir` against the working
        directory, walk the subtree the server holds there (`tree`), and report
        the bytes saved. `pwd` is the server's answer to `PWD`. */
    method DownloadRemoteFolder(remoteDir: string, pwd: Result<string>, tree: RemoteNode)
      returns (r: Result<string>)
      ensures ActiveSession(Current()).Err? ==> r == Err(NoActiveConnection)
      ensures var walk := FolderDownload(AbsoluteRemote(remoteDir, pwd), tree);
        && (ActiveSession(Current()).Ok? && walk.Err? ==> r == Err(walk.error))
        && (ActiveSession(Current()).Ok? && walk.Ok? ==>
              r == Ok("Downloaded folder '" + remoteDir + "' (" + DecimalString(TreeBytes(tree)) + " bytes)"))
    {
      if ActiveSession(Current()).Err? {
        return Err(NoActiveConnection);
      }
      var absoluteRemote := AbsoluteRemote(remoteDir, pwd);
      var result, _ := RecursiveDownload(absoluteRemote, tree);
      if result.Err? {
        return Err(result.error);
      }
      SavedBytesAreTreeBytes(absoluteRemote, tree);
      r := Ok("Downloaded folder '" + remoteDir + "' (" + DecimalString(result.value) + " bytes)");
    }
  }
}
