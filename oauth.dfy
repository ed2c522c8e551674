/** The OAuth 2.0 authorization-code flow of `oauth.rs` (section 4.1 of
    RFC 6749): the authorization request for each provider, the loopback
    server's handling of the browser's redirect, and the token request. The
    browser, the loopback server's incoming requests and the token endpoint's
    answer are parameters. */
module OAuth {
  import opened Common
  import opened Text

  /** The loopback port the redirect comes back to. */
  const Port: nat := 3456
  const CallbackPath: string := "/oauth/callback"

  /** The port in decimal, as `format!` writes it into the redirect URI. */
  lemma PortDecimal()
    ensures DecimalString(Port) == "3456"
  {
    assert DecimalString(3) == "3";
    assert DecimalString(34) == "34";
    assert DecimalString(345) == "345";
  }

  /** `redirect_uri`, sent in both the authorization and the token request. */
  function RedirectUri(): (u: string)
    ensures u == "http://localhost:3456/oauth/callback"
  {
    PortDecimal();
    "http://localhost:" + DecimalString(Port) + CallbackPath
  }

  predicate IsSupported(provider: string)
  {
    provider == "google" || provider == "dropbox"
  }

  /** The page the browser is sent to: an endpoint and its query parameters, in
      the order they are appended. Percent-encoding them is not modelled. */
  datatype AuthRequest = AuthRequest(endpoint: string, params: seq<(string, string)>)

  const GoogleAuthEndpoint: string := "https://accounts.google.com/o/oauth2/v2/auth"
  const DropboxAuthEndpoint: string := "https://www.dropbox.com/oauth2/authorize"
  const DriveFileScope: string := "https://www.googleapis.com/auth/drive.file"

  /** The parameters both providers' authorization requests start with. */
  function CommonAuthParams(clientId: string): (r: seq<(string, string)>)
    ensures Lookup(r, "client_id") == Some(clientId)
    ensures Lookup(r, "redirect_uri") == Some(RedirectUri())
    ensures Lookup(r, "response_type") == Some("code")
  {
    var params := [("client_id", clientId), ("redirect_uri", RedirectUri()), ("response_type", "code")];
    assert "response_type"[2] != "redirect_uri"[2];
    assert "response_type"[0] != "client_id"[0] && "redirect_uri"[0] != "client_id"[0];
    var two := params[..2];
    assert two == [("client_id", clientId), ("redirect_uri", RedirectUri())];
    assert Lookup(params, "redirect_uri") == Lookup(two, "redirect_uri");
    assert Lookup(params, "client_id") == Lookup(two, "client_id") == Lookup(two[..1], "client_id");
    params
  }

  /** Step 1: the authorization request for `provider`, or the error for a
      provider that is not supported. */
  function AuthorizationRequest(provider: string, clientId: string): (r: Result<AuthRequest>)
    ensures r.Ok? <==> IsSupported(provider)
    ensures r.Err? ==> r.error == "Unsupported provider: " + provider
    ensures provider == "google" ==> r.Ok? && r.value.endpoint == GoogleAuthEndpoint && r.value.params == [
      ("client_id", clientId), ("redirect_uri", RedirectUri()), ("response_type", "code"),
      ("scope", DriveFileScope), ("access_type", "offline"), ("prompt", "consent")]
    ensures provider == "dropbox" ==> r.Ok? && r.value.endpoint == DropboxAuthEndpoint && r.value.params == [
      ("client_id", clientId), ("redirect_uri", RedirectUri()), ("response_type", "code"),
      ("token_access_type", "offline")]
  {
    var common := CommonAuthParams(clientId);
    if provider == "google" then
      Ok(AuthRequest(GoogleAuthEndpoint, common + [("scope", DriveFileScope), ("access_type", "offline"), ("prompt", "consent")]))
    else if provider == "dropbox" then
      Ok(AuthRequest(DropboxAuthEndpoint, common + [("token_access_type", "offline")]))
    else Err("Unsupported provider: " + provider)
  }

  /** Looking `key` up in the map the query pairs are collected into: later
      pairs overwrite earlier ones, so it is the value of the last pair with
      that key. */
  function Lookup(pairs: seq<(string, string)>, key: string): (r: Option<string>)
    ensures r.Some? ==> exists i :: 0 <= i < |pairs| && pairs[i] == (key, r.value)
  {
    if pairs == [] then None
    else if pairs[|pairs| - 1].0 == key then Some(pairs[|pairs| - 1].1)
    else Lookup(pairs[..|pairs| - 1], key)
  }

  /** A key is found exactly when some pair carries it. */
  lemma {:induction false} LookupFindsKey(pairs: seq<(string, string)>, key: string)
    ensures Lookup(pairs, key).Some? <==> exists i :: 0 <= i < |pairs| && pairs[i].0 == key
  {
    if pairs != [] && pairs[|pairs| - 1].0 != key {
      var front := pairs[..|pairs| - 1];
      LookupFindsKey(front, key);
      if exists i :: 0 <= i < |pairs| && pairs[i].0 == key {
        var i :| 0 <= i < |pairs| && pairs[i].0 == key;
        assert front[i] == pairs[i];
      }
    }
  }

  /** The value found is the one of the last pair with that key. */
  lemma {:induction false} LookupIsLast(pairs: seq<(string, string)>, key: string)
    requires Lookup(pairs, key).Some?
    ensures exists i :: (
      && 0 <= i < |pairs| && pairs[i] == (key, Lookup(pairs, key).value)
      && forall j :: i < j < |pairs| ==> pairs[j].0 != key)
  {
    var n := |pairs| - 1;
    var v := Lookup(pairs, key).value;
    if pairs[n].0 == key {
      assert pairs[n] == (key, v);
    } else {
      var front := pairs[..n];
      assert Lookup(front, key) == Lookup(pairs, key);
      LookupIsLast(front, key);
      var i :| 0 <= i < |front| && front[i] == (key, v)
        && forall j :: i < j < |front| ==> front[j].0 != key;
      assert pairs[i] == (key, v);
      assert forall j :: i < j < |pairs| ==> pairs[j].0 != key by {
        forall j | i < j < |pairs| ensures pairs[j].0 != key {
          if j < n { assert pairs[j] == front[j]; }
        }
      }
    }
  }

  /** Pairs with other keys appended after the last pair for `key` do not change
      what it maps to. */
  lemma {:induction false} LookupSkips(front: seq<(string, string)>, back: seq<(string, string)>, key: string)
    requires forall k :: 0 <= k < |back| ==> back[k].0 != key
    ensures Lookup(front + back, key) == Lookup(front, key)
    decreases |back|
  {
    if back == [] {
      assert front + back == front;
    } else {
      var all := front + back;
      assert all[..|all| - 1] == front + back[..|back| - 1];
      assert all[|all| - 1] == back[|back| - 1];
      LookupSkips(front, back[..|back| - 1], key);
    }
  }

  /** Every key of the authorization request can be read back: in particular the
      redirect URI, which the token request repeats. */
  lemma AuthRequestRedirect(provider: string, clientId: string)
    requires IsSupported(provider)
    ensures Lookup(AuthorizationRequest(provider, clientId).value.params, "redirect_uri") == Some(RedirectUri())
    ensures Lookup(AuthorizationRequest(provider, clientId).value.params, "response_type") == Some("code")
    ensures Lookup(AuthorizationRequest(provider, clientId).value.params, "client_id") == Some(clientId)
  {
    var common := CommonAuthParams(clientId);
    var ps := AuthorizationRequest(provider, clientId).value.params;
    var extra := ps[3..];
    assert ps == common + extra;
    forall key | key in {"redirect_uri", "response_type", "client_id"}
      ensures Lookup(ps, key) == Lookup(common, key)
    {
      LookupSkips(common, extra, key);
    }
  }

  /** One request reaching the loopback server: a URL that does not parse, or one
      with a path and its decoded query pairs. */
  datatype IncomingRequest = Unparseable | Parsed(path: string, query: seq<(string, string)>)

  /** What the server answers a request with. */
  datatype Reply = NotFound | AuthenticationFailed | AuthenticationSucceeded

  /** What a request means to the loop. */
  datatype Callback = Denied(error: string) | Granted(code: string) | Ignored

  /** The body of the loop over the loopback server's incoming requests: a
      request on the callback path carrying `error` is a denial, even when it
      carries `code` too; one carrying `code` grants it; anything else is not
      the callback. */
  function Classify(req: IncomingRequest): (c: Callback)
    ensures c.Denied? <==> req.Parsed? && req.path == CallbackPath && Lookup(req.query, "error").Some?
    ensures c.Denied? ==> c.error == Lookup(req.query, "error").value
    ensures c.Granted? <==> (req.Parsed? && req.path == CallbackPath
      && Lookup(req.query, "error").None? && Lookup(req.query, "code").Some?)
    ensures c.Granted? ==> c.code == Lookup(req.query, "code").value
  {
    match req
    case Unparseable => Ignored
    case Parsed(path, query) =>
      if path != CallbackPath then Ignored
      else match Lookup(query, "error")
        case Some(e) => Denied(e)
        case None =>
          match Lookup(query, "code")
          case Some(code) => Granted(code)
          case None => Ignored
  }

  /** The first request that is not ignored decides: a denial is the error, a
      grant is the code. If none comes, the code stays empty. */
  function CallbackResult(requests: seq<IncomingRequest>): (r: Result<string>)
    ensures var rs := Replies(requests);
      (r.Err? || r.value != "") ==>
        rs != [] && rs[|rs| - 1] == if r.Err? then AuthenticationFailed else AuthenticationSucceeded
  {
    if requests == [] then Ok("")
    else match Classify(requests[0])
      case Denied(e) => Err("OAuth error from provider: " + e)
      case Granted(code) => Ok(code)
      case Ignored => CallbackResult(requests[1..])
  }

  /** The replies the server sends: "Not Found" for every request that is not
      the callback, then the page for the one that decides. */
  function Replies(requests: seq<IncomingRequest>): (r: seq<Reply>)
    ensures |r| <= |requests|
    ensures requests != [] ==> r != []
  {
    if requests == [] then []
    else match Classify(requests[0])
      case Denied(_) => [AuthenticationFailed]
      case Granted(_) => [AuthenticationSucceeded]
      case Ignored => [NotFound] + Replies(requests[1..])
  }

  /** `n` "Not Found" replies. */
  function NotFounds(n: nat): seq<Reply>
  {
    if n == 0 then [] else [NotFound] + NotFounds(n - 1)
  }

  /** Requests that are not the callback change nothing: the loop goes on to the
      next one. */
  lemma {:induction false} IgnoredRequestsSkipped(ignored: seq<IncomingRequest>, rest: seq<IncomingRequest>)
    requires forall k :: 0 <= k < |ignored| ==> Classify(ignored[k]).Ignored?
    ensures CallbackResult(ignored + rest) == CallbackResult(rest)
    ensures Replies(ignored + rest) == NotFounds(|ignored|) + Replies(rest)
  {
    if ignored == [] {
      assert ignored + rest == rest;
    } else {
      assert (ignored + rest)[0] == ignored[0];
      assert (ignored + rest)[1..] == ignored[1..] + rest;
      IgnoredRequestsSkipped(ignored[1..], rest);
    }
  }

  /** The first request that is not ignored decides: a denial is reported with
      the provider's error, a code is captured, and every request before it
      was ignored. */
  lemma {:induction false} FirstDecidingRequest(requests: seq<IncomingRequest>)
    ensures CallbackResult(requests).Err? ==> exists i :: (
      && 0 <= i < |requests| && Classify(requests[i]).Denied?
      && (forall j :: 0 <= j < i ==> Classify(requests[j]).Ignored?)
      && CallbackResult(requests).error == "OAuth error from provider: " + Classify(requests[i]).error)
    ensures CallbackResult(requests).Ok? && CallbackResult(requests).value != "" ==> exists i :: (
      && 0 <= i < |requests| && Classify(requests[i]) == Granted(CallbackResult(requests).value)
      && (forall j :: 0 <= j < i ==> Classify(requests[j]).Ignored?))
  {
    if requests != [] && Classify(requests[0]).Ignored? {
      var rest := requests[1..];
      FirstDecidingRequest(rest);
      var r := CallbackResult(rest);
      if r.Err? || r.value != "" {
        var i :| 0 <= i < |rest| && !Classify(rest[i]).Ignored?
          && (forall j :: 0 <= j < i ==> Classify(rest[j]).Ignored?)
          && (r.Err? ==> Classify(rest[i]).Denied? && r.error == "OAuth error from provider: " + Classify(rest[i]).error)
          && (r.Ok? ==> Classify(rest[i]) == Granted(r.value));
        assert requests[i + 1] == rest[i];
        forall j | 0 <= j < i + 1 ensures Classify(requests[j]).Ignored? {
          if j > 0 { assert requests[j] == rest[j - 1]; }
        }
      }
    }
  }

  /** Every reply but the last is "Not Found", and the last is the page for the
      deciding request when there is one. */
  lemma {:induction false} RepliesShape(requests: seq<IncomingRequest>)
    ensures |Replies(requests)| <= |requests|
    ensures forall k :: 0 <= k < |Replies(requests)| - 1 ==> Replies(requests)[k] == NotFound
    ensures CallbackResult(requests).Err? ==>
      Replies(requests) != [] && Replies(requests)[|Replies(requests)| - 1] == AuthenticationFailed
  {
    if requests != [] && Classify(requests[0]).Ignored? {
      RepliesShape(requests[1..]);
    }
  }

  /** One pass of the request loop: the outcome and the replies from request
      `i` on are decided by how request `i` is classified. */
  lemma LoopStep(requests: seq<IncomingRequest>, i: nat)
    requires i < |requests|
    ensures var c := Classify(requests[i]);
      && (c.Denied? ==> CallbackResult(requests[i..]) == Err("OAuth error from provider: " + c.error)
                        && Replies(requests[i..]) == [AuthenticationFailed])
      && (c.Granted? ==> CallbackResult(requests[i..]) == Ok(c.code) && Replies(requests[i..]) == [AuthenticationSucceeded])
      && (c.Ignored? ==> CallbackResult(requests[i..]) == CallbackResult(requests[i + 1..])
                         && Replies(requests[i..]) == [NotFound] + Replies(requests[i + 1..]))
  {
    assert requests[i..][0] == requests[i];
    assert requests[i..][1..] == requests[i + 1..];
  }

  /** The loop over incoming requests: answer every request that is not the
      callback with a 404 and go on; stop at the first denial or code. */
  method AwaitCallback(requests: seq<IncomingRequest>) returns (outcome: Result<string>, replies: seq<Reply>)
    ensures outcome == CallbackResult(requests)
    ensures replies == Replies(requests)
  {
    var authCode := "";
    replies := [];
    var i := 0;
    while i < |requests|
      invariant 0 <= i <= |requests|
      invariant CallbackResult(requests) == CallbackResult(requests[i..])
      invariant Replies(requests) == replies + Replies(requests[i..])
    {
      LoopStep(requests, i);
      var request := requests[i];
      if request.Parsed? && request.path == CallbackPath {
        var error := Lookup(request.query, "error");
        if error.Some? {
          replies := replies + [AuthenticationFailed];
          return Err("OAuth error from provider: " + error.value), replies;
        }
        var code := Lookup(request.query, "code");
        if code.Some? {
          authCode := code.value;
          replies := replies + [AuthenticationSucceeded];
          break;
        }
      }
      replies := replies + [NotFound];
      i := i + 1;
    }
    if i == |requests| {
      assert requests[i..] == [];
    }
    outcome := Ok(authCode);
  }

  /** Step 4: the token endpoint of a supported provider. */
  function TokenEndpoint(provider: string): (u: string)
    requires IsSupported(provider)
    ensures provider == "google" ==> u == "https://oauth2.googleapis.com/token"
    ensures provider == "dropbox" ==> u == "https://api.dropboxapi.com/oauth2/token"
  {
    if provider == "google" then "https://oauth2.googleapis.com/token"
    else "https://api.dropboxapi.com/oauth2/token"
  }

  /** The form of the token request for `code`: exactly the five fields of
      section 4.1.3 of RFC 6749 plus the client secret. */
  predicate IsTokenForm(form: map<string, string>, clientId: string, clientSecret: string, code: string)
  {
    && form.Keys == {"client_id", "client_secret", "code", "grant_type", "redirect_uri"}
    && form["client_id"] == clientId && form["client_secret"] == clientSecret
    && form["code"] == code && form["grant_type"] == "authorization_code"
    && form["redirect_uri"] == RedirectUri()
  }

  /** The form the token request posts, built by successive inserts. */
  method TokenParams(clientId: string, clientSecret: string, code: string)
    returns (params: map<string, string>)
    ensures IsTokenForm(params, clientId, clientSecret, code)
  {
    params := map[];
    params := params["client_id" := clientId];
    params := params["client_secret" := clientSecret];
    params := params["code" := code];
    params := params["grant_type" := "authorization_code"];
    params := params["redirect_uri" := RedirectUri()];
  }

  /** `OAuthTokens`, and the token endpoint's successful answer. */
  datatype OAuthTokens = OAuthTokens(accessToken: string, refreshToken: Option<string>, expiresIn: Option<nat>)

  /** The token request: its endpoint and its form. */
  datatype TokenRequest = TokenRequest(endpoint: string, form: map<string, string>)

  /** What `start_oauth_flow` returns once the token request was sent:
      `tokenReply` is the endpoint's answer, whose payload is the decoded
      tokens or the decoding error. */
  function TokenOutcome(tokenReply: HttpOutcome<Result<OAuthTokens>>): (r: Result<OAuthTokens>)
    ensures tokenReply.SendFailed? ==> r == Err("Token request failed: " + tokenReply.reason)
    ensures tokenReply.NotSuccess? ==> r == Err("Failed to exchange token: " + tokenReply.body)
    ensures tokenReply.Success? && tokenReply.payload.Err? ==>
      r == Err("Failed to parse token response: " + tokenReply.payload.error)
    ensures tokenReply.Success? && tokenReply.payload.Ok? ==> r == tokenReply.payload
  {
    match tokenReply
    case SendFailed(e) => Err("Token request failed: " + e)
    case NotSuccess(body) => Err("Failed to exchange token: " + body)
    case Success(decoded) =>
      match decoded
      case Err(e) => Err("Failed to parse token response: " + e)
      case Ok(tokens) => Ok(OAuthTokens(tokens.accessToken, tokens.refreshToken, tokens.expiresIn))
  }

  /** `start_oauth_flow`. `browserError` and `serverError` are the outcomes of
      opening the browser and binding the loopback server, `requests` what the
      server receives, `tokenReply` the token endpoint's answer (its payload is
      the decoded tokens or the decoding error). `authRequest` is the page sent
      to the browser and `tokenRequest` the request posted, if any. */
  method StartOAuthFlow(provider: string, clientId: string, clientSecret: string,
                        browserError: Option<string>, serverError: Option<string>,
                        requests: seq<IncomingRequest>, tokenReply: HttpOutcome<Result<OAuthTokens>>)
    returns (r: Result<OAuthTokens>, authRequest: Option<AuthRequest>, replies: seq<Reply>,
             tokenRequest: Option<TokenRequest>)
    ensures !IsSupported(provider) ==>
      r == Err("Unsupported provider: " + provider) && authRequest == None && replies == [] && tokenRequest == None
    ensures IsSupported(provider) ==> authRequest == Some(AuthorizationRequest(provider, clientId).value)
    ensures IsSupported(provider) && browserError.Some? ==> r == Err("Failed to open browser: " + browserError.value)
    ensures IsSupported(provider) && browserError.None? && serverError.Some? ==>
      r == Err("Failed to start local server: " + serverError.value)
    ensures var ready := IsSupported(provider) && browserError.None? && serverError.None?;
      && (ready ==> replies == Replies(requests))
      && (!ready ==> replies == [])
      && (ready && CallbackResult(requests).Err? ==> r == Err(CallbackResult(requests).error))
      && (ready && CallbackResult(requests) == Ok("") ==> r == Err("Failed to capture authorization code"))
      && (tokenRequest.Some? <==> ready && CallbackResult(requests).Ok? && CallbackResult(requests).value != "")
    ensures tokenRequest.Some? ==>
      && tokenRequest.value.endpoint == TokenEndpoint(provider)
      && IsTokenForm(tokenRequest.value.form, clientId, clientSecret, CallbackResult(requests).value)
      && r == TokenOutcome(tokenReply)
  {
    replies := [];
    tokenRequest := None;
    var auth := AuthorizationRequest(provider, clientId);
    if auth.Err? {
      return Err(auth.error), None, replies, tokenRequest;
    }
    authRequest := Some(auth.value);
    if browserError.Some? {
      return Err("Failed to open browser: " + browserError.value), authRequest, replies, tokenRequest;
    }
    if serverError.Some? {
      return Err("Failed to start local server: " + serverError.value), authRequest, replies, tokenRequest;
    }
    var outcome;
    outcome, replies := AwaitCallback(requests);
    if outcome.Err? {
      return Err(outcome.error), authRequest, replies, tokenRequest;
    }
    var authCode := outcome.value;
    if authCode == "" {
      return Err("Failed to capture authorization code"), authRequest, replies, tokenRequest;
    }
    var endpoint := TokenEndpoint(provider);
    var params := TokenParams(clientId, clientSecret, authCode);
    tokenRequest := Some(TokenRequest(endpoint, params));
    r := TokenOutcome(tokenReply);
  }
}
