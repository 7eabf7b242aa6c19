/** What one request does to the store and what it answers, stated per branch of `fetch`. */
module WorkerProperties {
  import opened Wrappers
  import opened HexToken
  import opened Cookie
  import opened Kv
  import opened Worker

  /** The session gate of `/admin/apps` lets the request through. */
  predicate GatePasses(s: KvState, cookie: Option<string>, now: int) {
    var token := ExtractSessionToken(cookie);
    token.Some? && Authenticated(ValidateSession(s.sessions, token.value, now))
  }

  /** A POST to `/admin/apps` by a validated session carrying the given `action` field. */
  predicate IsAction(s: KvState, req: Request, now: int, action: string) {
    req.path == "/admin/apps" && req.httpMethod == "POST" && GatePasses(s, req.cookie, now)
    && FormGet(req.form, "action") == Some(action)
  }

  // ---------------------------------------------------------------- sessions

  /** `validateSession` yields a username exactly while `session:{token}` is stored and live. */
  lemma ValidateSessionIff(sessions: map<string, Session>, token: string, now: int, user: Option<string>)
    ensures ValidateSession(sessions, token, now) == SessionUser(user)
        <==> SessionKey(token) in sessions && now < sessions[SessionKey(token)].expiresAt
             && sessions[SessionKey(token)].username == user
    ensures ValidateSession(sessions, token, now) == NoSession
        <==> SessionKey(token) !in sessions || sessions[SessionKey(token)].expiresAt <= now
  {
  }

  /** Login succeeds iff both submitted values equal the stored ones; only the new session key is written. */
  lemma LoginOutcome(s: KvState, req: Request, random: seq<byte>, scan: seq<string>, now: int)
    requires |random| == TokenBytes && IsLogin(req)
    ensures var (s', r) := Dispatch(s, req, random, scan, now);
            var token := GenerateSecureToken(random);
            && (r.status == 302 <==> FormGet(req.form, "username") == s.username
                                     && FormGet(req.form, "password") == s.password)
            && (r.status == 302 ==>
                  && s' == s.(sessions := s.sessions[SessionKey(token) := Session(s.username, now + SessionTtl)])
                  && r.location == Some("/admin/apps")
                  && r.setCookie == Some("session=" + token + "; HttpOnly; Secure; SameSite=Strict; Path=/"))
            && (r.status != 302 ==> s' == s && r == Response(401, None, None, PlainText("Invalid credentials")))
  {
  }

  /** The session a login creates validates to the stored username for exactly SessionTtl seconds. */
  lemma LoginThenValidate(s: KvState, req: Request, random: seq<byte>, scan: seq<string>, now: int, later: int)
    requires |random| == TokenBytes && IsLogin(req) && CredentialsMatch(s, req.form)
    ensures var s' := Dispatch(s, req, random, scan, now).0;
            ValidateSession(s'.sessions, GenerateSecureToken(random), later)
              == if later < now + SessionTtl then SessionUser(s.username) else NoSession
  {
  }

  /**
   * The browser sending back the cookie a login set gets past the gate until
   * the session expires, provided a non-empty username is provisioned.
   */
  lemma LoginCookieGrantsAccess(s: KvState, login: Request, random: seq<byte>, scan: seq<string>, now: int,
                                next: Request, later: int)
    requires |random| == TokenBytes && IsLogin(login) && CredentialsMatch(s, login.form)
    requires s.username.Some? && s.username.value != ""
    requires next.cookie == Some("session=" + GenerateSecureToken(random))
    requires now <= later < now + SessionTtl
    ensures GatePasses(Dispatch(s, login, random, scan, now).0, next.cookie, later)
  {
    CookieRoundTrip(GenerateSecureToken(random));
  }

  /** Without an extractable, truthy session the gate redirects to `/admin` and writes nothing. */
  lemma GateRejects(s: KvState, req: Request, random: seq<byte>, scan: seq<string>, now: int)
    requires |random| == TokenBytes
    requires req.path == "/admin/apps" && !GatePasses(s, req.cookie, now)
    ensures Dispatch(s, req, random, scan, now) == (s, Redirect("/admin"))
  {
  }

  /** Every session was made by login, so it holds the stored username. */
  ghost predicate SessionsOwned(s: KvState) {
    forall k :: k in s.sessions ==> s.sessions[k].username == s.username
  }

  lemma SessionsOwnedPreserved(s: KvState, req: Request, random: seq<byte>, scan: seq<string>, now: int)
    requires |random| == TokenBytes && SessionsOwned(s)
    ensures SessionsOwned(Dispatch(s, req, random, scan, now).0)
  {
  }

  /**
   * A stored username that is absent or empty admits nobody: the sessions such
   * a login creates hold a falsy username, which the gate rejects.
   */
  lemma GateNeedsProvisionedUsername(s: KvState, token: string, now: int)
    requires SessionsOwned(s) && Authenticated(ValidateSession(s.sessions, token, now))
    ensures s.username.Some? && s.username.value != ""
  {
  }

  /** A POST that passes the gate is handled by AppAction with the cookie's token. */
  lemma GatedPostIsAction(s: KvState, req: Request, random: seq<byte>, scan: seq<string>, now: int)
    requires |random| == TokenBytes
    requires req.path == "/admin/apps" && req.httpMethod == "POST" && GatePasses(s, req.cookie, now)
    ensures Dispatch(s, req, random, scan, now) == AppAction(s, req.form, ExtractSessionToken(req.cookie).value)
  {
  }

  /** Logout removes exactly its own session key, which then never validates again. */
  lemma LogoutOutcome(s: KvState, form: map<string, string>, session: string, later: int)
    requires FormGet(form, "action") == Some("logout")
    ensures var (s', r) := AppAction(s, form, session);
            && s' == s.(sessions := s.sessions - {SessionKey(session)})
            && r == Redirect("/admin")
            && ValidateSession(s'.sessions, session, later) == NoSession
  {
  }

  /** Repeating a logout changes nothing more: the session is gone, so the gate redirects. */
  lemma LogoutIdempotent(s: KvState, req: Request, random: seq<byte>, scan: seq<string>, now: int)
    requires |random| == TokenBytes && IsAction(s, req, now, "logout")
    ensures var (s', r) := Dispatch(s, req, random, scan, now);
            Dispatch(s', req, random, scan, now) == (s', r)
  {
    var session := ExtractSessionToken(req.cookie).value;
    LogoutOutcome(s, req.form, session, now);
  }

  /**
   * A token that does not validate now never validates later, unless a login
   * generates that very token again.
   */
  lemma NoResurrection(s: KvState, req: Request, random: seq<byte>, scan: seq<string>, now: int,
                       token: string, later: int)
    requires |random| == TokenBytes
    requires ValidateSession(s.sessions, token, now) == NoSession && now <= later
    requires !(IsLogin(req) && CredentialsMatch(s, req.form) && token == GenerateSecureToken(random))
    ensures ValidateSession(Dispatch(s, req, random, scan, now).0.sessions, token, later) == NoSession
  {
    var s' := Dispatch(s, req, random, scan, now).0;
    var key := SessionKey(token);
    if IsLogin(req) && CredentialsMatch(s, req.form) {
      var other := GenerateSecureToken(random);
      assert key != SessionKey(other) by {
        assert key[8..] == token && SessionKey(other)[8..] == other;
      }
    }
    assert key in s'.sessions ==> key in s.sessions && s'.sessions[key] == s.sessions[key];
  }

  // ------------------------------------------------------------ applications

  /** `create` answers 400 and writes nothing iff `app:{name}` exists; otherwise it stores the form's record. */
  lemma CreateOutcome(s: KvState, form: map<string, string>, session: string)
    requires FormGet(form, "action") == Some("create")
    ensures var (s', r) := AppAction(s, form, session);
            var key := AppKey(FormGet(form, "name"));
            && (r.status == 400 <==> key in s.apps)
            && (key in s.apps ==> s' == s && r.body == PlainText("Application name already exists"))
            && (key !in s.apps ==>
                  && s'.apps == s.apps[key := App(FormGet(form, "name"), FormGet(form, "client_id"),
                                                  FormGet(form, "auth_path"), FormGet(form, "api_path"))]
                  && s'.sessions == s.sessions && s'.username == s.username && s'.password == s.password
                  && r == Redirect("/admin/apps"))
  {
  }

  /**
   * `edit` answers 404 and writes nothing iff `app:{name}` is absent; otherwise
   * it replaces only `authPath` and `apiPath` of that one record.
   */
  lemma EditOutcome(s: KvState, form: map<string, string>, session: string)
    requires FormGet(form, "action") == Some("edit")
    ensures var (s', r) := AppAction(s, form, session);
            var key := AppKey(FormGet(form, "name"));
            && (r.status == 404 <==> key !in s.apps)
            && (key !in s.apps ==> s' == s && r.body == PlainText("Application not found"))
            && (key in s.apps ==>
                  && key in s'.apps
                  && s'.apps[key].name == s.apps[key].name
                  && s'.apps[key].clientId == s.apps[key].clientId
                  && s'.apps[key].authPath == FormGet(form, "auth_path")
                  && s'.apps[key].apiPath == FormGet(form, "api_path")
                  && s'.apps - {key} == s.apps - {key}
                  && s'.sessions == s.sessions && s'.username == s.username && s'.password == s.password
                  && r == Redirect("/admin/apps"))
  {
    var s' := AppAction(s, form, session).0;
    var key := AppKey(FormGet(form, "name"));
    if key in s.apps {
      assert s'.apps == s.apps[key := EditedApp(s.apps[key], form)];
    }
  }

  /** `delete` removes exactly `app:{name}`, present or not. */
  lemma DeleteOutcome(s: KvState, form: map<string, string>, session: string)
    requires FormGet(form, "action") == Some("delete")
    ensures var (s', r) := AppAction(s, form, session);
            && s' == s.(apps := s.apps - {AppKey(FormGet(form, "name"))})
            && r == Redirect("/admin/apps")
  {
  }

  /** Repeating a delete changes nothing more and answers the same. */
  lemma DeleteIdempotent(s: KvState, form: map<string, string>, session: string)
    requires FormGet(form, "action") == Some("delete")
    ensures var (s', r) := AppAction(s, form, session);
            AppAction(s', form, session) == (s', r)
  {
    var s' := AppAction(s, form, session).0;
    assert s'.apps - {AppKey(FormGet(form, "name"))} == s'.apps;
  }

  /** An action other than logout, create, delete or edit writes nothing and redirects to the listing. */
  lemma UnknownActionIsNoop(s: KvState, form: map<string, string>, session: string)
    requires FormGet(form, "action") !in {Some("logout"), Some("create"), Some("delete"), Some("edit")}
    ensures AppAction(s, form, session) == (s, Redirect("/admin/apps"))
  {
  }

  /** A validated request other than POST gets the listing and writes nothing. */
  lemma ListingIsReadOnly(s: KvState, req: Request, random: seq<byte>, scan: seq<string>, now: int)
    requires |random| == TokenBytes
    requires req.path == "/admin/apps" && req.httpMethod != "POST" && GatePasses(s, req.cookie, now)
    ensures Dispatch(s, req, random, scan, now) == (s, Response(200, None, None, AppsPage(ListedApps(scan, s.apps))))
  {
  }

  // ------------------------------------------------------------------ frames

  /** The one store key a request may write. */
  function TouchedKey(req: Request, random: seq<byte>): string
    requires |random| == TokenBytes
  {
    if req.path == "/admin" then SessionKey(GenerateSecureToken(random))
    else if FormGet(req.form, "action") == Some("logout") then
      match ExtractSessionToken(req.cookie)
      case Some(session) => SessionKey(session)
      case None => ""
    else AppKey(FormGet(req.form, "name"))
  }

  /** Every request leaves every key but TouchedKey, and both credential keys, as they were. */
  lemma OneKeyTouched(s: KvState, req: Request, random: seq<byte>, scan: seq<string>, now: int)
    requires |random| == TokenBytes
    ensures var s' := Dispatch(s, req, random, scan, now).0;
            var key := TouchedKey(req, random);
            && s'.sessions - {key} == s.sessions - {key}
            && s'.apps - {key} == s.apps - {key}
            && s'.username == s.username && s'.password == s.password
  {
    var key := TouchedKey(req, random);
    if IsLogin(req) {
      LoginOutcome(s, req, random, scan, now);
    } else if req.path == "/admin/apps" && req.httpMethod == "POST" && GatePasses(s, req.cookie, now) {
      var action := FormGet(req.form, "action");
      var session := ExtractSessionToken(req.cookie).value;
      GatedPostIsAction(s, req, random, scan, now);
      if action == Some("logout") {
        LogoutOutcome(s, req.form, session, now);
      } else if action == Some("create") {
        CreateOutcome(s, req.form, session);
      } else if action == Some("delete") {
        DeleteOutcome(s, req.form, session);
      } else if action == Some("edit") {
        EditOutcome(s, req.form, session);
      } else {
        UnknownActionIsNoop(s, req.form, session);
      }
    }
  }

  /** Only a login or a validated POST to `/admin/apps` changes the store. */
  lemma WritesNeedLoginOrSession(s: KvState, req: Request, random: seq<byte>, scan: seq<string>, now: int)
    requires |random| == TokenBytes
    requires Dispatch(s, req, random, scan, now).0 != s
    ensures IsLogin(req) || (req.path == "/admin/apps" && req.httpMethod == "POST" && GatePasses(s, req.cookie, now))
  {
  }

  // ----------------------------------------------------------------- listing

  /** Every listed record is the stored record of some scanned key. */
  lemma {:induction false} ListedAppsSound(keys: seq<string>, apps: map<string, App>, i: nat)
    requires i < |ListedApps(keys, apps)|
    ensures exists k :: k in keys && k in apps && apps[k] == ListedApps(keys, apps)[i]
  {
    var init := keys[..|keys| - 1];
    var last := keys[|keys| - 1];
    if i < |ListedApps(init, apps)| {
      ListedAppsSound(init, apps, i);
      var k :| k in init && k in apps && apps[k] == ListedApps(init, apps)[i];
      assert k in keys;
    } else {
      assert last in keys;
    }
  }

  /** Every scanned key whose lookup succeeds has its record listed. */
  lemma {:induction false} ListedAppsComplete(keys: seq<string>, apps: map<string, App>, k: string)
    requires k in keys && k in apps
    ensures apps[k] in ListedApps(keys, apps)
  {
    var init := keys[..|keys| - 1];
    if k != keys[|keys| - 1] {
      assert k in init by {
        var j :| 0 <= j < |keys| && keys[j] == k;
        assert init[j] == k;
      }
      ListedAppsComplete(init, apps, k);
    }
  }

  /** When every scanned key is present, the listing is their records in scan order. */
  lemma {:induction false} ListedAppsInOrder(keys: seq<string>, apps: map<string, App>)
    requires forall k :: k in keys ==> k in apps
    ensures |ListedApps(keys, apps)| == |keys|
    ensures forall i :: 0 <= i < |keys| ==> ListedApps(keys, apps)[i] == apps[keys[i]]
  {
    if keys != [] {
      var init := keys[..|keys| - 1];
      assert forall k :: k in init ==> k in keys;
      ListedAppsInOrder(init, apps);
    }
  }

  /** One scanned key lists its record if the lookup succeeds and nothing otherwise. */
  lemma ListedAppsSingle(k: string, apps: map<string, App>)
    ensures ListedApps([k], apps) == if k in apps then [apps[k]] else []
  {
    assert [k][..0] == [];
  }

  /** The listing of a concatenated scan is the concatenation of the listings, in order. */
  lemma {:induction false} ListedAppsAppend(a: seq<string>, b: seq<string>, apps: map<string, App>)
    ensures ListedApps(a + b, apps) == ListedApps(a, apps) + ListedApps(b, apps)
    decreases |b|
  {
    if b == [] {
      assert a + b == a;
    } else {
      var b' := b[..|b| - 1];
      assert (a + b)[..|a + b| - 1] == a + b';
      assert (a + b)[|a + b| - 1] == b[|b| - 1];
      ListedAppsAppend(a, b', apps);
    }
  }

  /** Whatever the scan skips, the listing is the per-key listings of the scan in order. */
  lemma ListedAppsSkipping(pre: seq<string>, k: string, post: seq<string>, apps: map<string, App>)
    ensures ListedApps(pre + [k] + post, apps)
         == ListedApps(pre, apps) + (if k in apps then [apps[k]] else []) + ListedApps(post, apps)
  {
    ListedAppsAppend(pre + [k], post, apps);
    ListedAppsAppend(pre, [k], apps);
    ListedAppsSingle(k, apps);
  }

  /** After a successful create, a scan that reaches the new key lists the new record. */
  lemma CreatedAppIsListed(s: KvState, form: map<string, string>, session: string, scan: seq<string>)
    requires FormGet(form, "action") == Some("create")
    requires AppKey(FormGet(form, "name")) !in s.apps && AppKey(FormGet(form, "name")) in scan
    ensures NewApp(form) in ListedApps(scan, AppAction(s, form, session).0.apps)
  {
    var s' := AppAction(s, form, session).0;
    ListedAppsComplete(scan, s'.apps, AppKey(FormGet(form, "name")));
  }
}
