/**
 * The worker's `fetch` handler: routing, the admin login, the session gate on
 * `/admin/apps`, the application actions and the application listing.
 * `Dispatch` states what one request does to the store and what it answers;
 * `Fetch` performs it step by step against a `Kv.Store`.
 */
module Worker {
  import opened Wrappers
  import opened HexToken
  import opened Cookie
  import opened Kv

  /**
   * What the handler reads from a request: the URL path, the method, whether
   * the query string has an `action` parameter, the form fields (first value
   * of each) and the Cookie header, if any.
   */
  datatype Request = Request(
    path: string,
    httpMethod: string,
    hasActionParam: bool,
    form: map<string, string>,
    cookie: Option<string>)

  /** The response body, with the HTML pages reduced to what they show. */
  datatype Body = NoBody | PlainText(text: string) | LoginPage | AppsPage(apps: seq<App>)

  /** Status, Location (as a path on the worker's own origin), Set-Cookie and body. */
  datatype Response = Response(status: int, location: Option<string>, setCookie: Option<string>, body: Body)

  /** `formData.get(field)`: the value, or `null` when the field is absent. */
  function FormGet(form: map<string, string>, field: string): Option<string> {
    if field in form then Some(form[field]) else None
  }

  function Redirect(path: string): Response {
    Response(302, Some(path), None, NoBody)
  }

  function Text(status: int, text: string): Response {
    Response(status, None, None, PlainText(text))
  }

  /** The Set-Cookie value of a successful login. */
  function SessionCookie(token: string): string {
    "session=" + token + "; HttpOnly; Secure; SameSite=Strict; Path=/"
  }

  /** A POST to `/admin` without an `action` query parameter is a login attempt. */
  predicate IsLogin(req: Request) {
    req.path == "/admin" && req.httpMethod == "POST" && !req.hasActionParam
  }

  /** The store key an action names: `app:${formData.get('name')}`. */
  function ActionKey(form: map<string, string>): string {
    AppKey(FormGet(form, "name"))
  }

  /** The record `create` stores: `{ name, clientId, authPath, apiPath }` from the form. */
  function NewApp(form: map<string, string>): App {
    App(FormGet(form, "name"), FormGet(form, "client_id"), FormGet(form, "auth_path"), FormGet(form, "api_path"))
  }

  /** The record `edit` stores: the old one with only `authPath` and `apiPath` replaced. */
  function EditedApp(app: App, form: map<string, string>): App {
    app.(authPath := FormGet(form, "auth_path"), apiPath := FormGet(form, "api_path"))
  }

  /** Whether the credentials submitted in `form` equal the stored ones (`===` on strings or null). */
  predicate CredentialsMatch(s: KvState, form: map<string, string>) {
    FormGet(form, "username") == s.username && FormGet(form, "password") == s.password
  }

  /** The login branch: a session and a cookie on a match, 401 otherwise. */
  function Login(s: KvState, form: map<string, string>, random: seq<byte>, now: int): (KvState, Response)
    requires |random| == TokenBytes
  {
    if CredentialsMatch(s, form) then
      var token := GenerateSecureToken(random);
      var session := Session(FormGet(form, "username"), now + SessionTtl);
      (s.(sessions := s.sessions[SessionKey(token) := session]),
       Response(302, Some("/admin/apps"), Some(SessionCookie(token)), NoBody))
    else
      (s, Text(401, "Invalid credentials"))
  }

  /** A POST to `/admin/apps` by a validated session: dispatch on the `action` field. */
  function AppAction(s: KvState, form: map<string, string>, session: string): (KvState, Response) {
    var action := FormGet(form, "action");
    var key := ActionKey(form);
    if action == Some("logout") then
      (s.(sessions := s.sessions - {SessionKey(session)}), Redirect("/admin"))
    else if action == Some("create") && key in s.apps then
      (s, Text(400, "Application name already exists"))
    else if action == Some("edit") && key !in s.apps then
      (s, Text(404, "Application not found"))
    else
      var s' :=
        if action == Some("create") then s.(apps := s.apps[key := NewApp(form)])
        else if action == Some("delete") then s.(apps := s.apps - {key})
        else if action == Some("edit") then s.(apps := s.apps[key := EditedApp(s.apps[key], form)])
        else s;
      (s', Redirect("/admin/apps"))
  }

  /** `/admin/apps`: the session gate, then an action (POST) or the listing (any other method). */
  function AdminApps(s: KvState, req: Request, scan: seq<string>, now: int): (KvState, Response) {
    match ExtractSessionToken(req.cookie)
    case None => (s, Redirect("/admin"))
    case Some(session) =>
      if !Authenticated(ValidateSession(s.sessions, session, now)) then (s, Redirect("/admin"))
      else if req.httpMethod == "POST" then AppAction(s, req.form, session)
      else (s, Response(200, None, None, AppsPage(ListedApps(scan, s.apps))))
  }

  /**
   * One request: the new store and the response. `random` is what
   * `crypto.getRandomValues` would supply, `scan` the keys the store's prefix
   * listing for `app:` returns, and `now` the store's clock.
   */
  function Dispatch(s: KvState, req: Request, random: seq<byte>, scan: seq<string>, now: int): (KvState, Response)
    requires |random| == TokenBytes
  {
    if req.path == "/get" then (s, Text(200, "OK"))
    else if req.path == "/admin" then
      if IsLogin(req) then Login(s, req.form, random, now) else (s, Response(200, None, None, LoginPage))
    else if req.path == "/admin/apps" then AdminApps(s, req, scan, now)
    else (s, Text(404, "Not Found"))
  }

  /** The listing loop: look up every scanned key, keep the records that are there. */
  method ListApps(store: Store, scan: seq<string>) returns (apps: seq<App>)
    ensures apps == ListedApps(scan, store.apps)
  {
    apps := [];
    var i := 0;
    while i < |scan|
      invariant 0 <= i <= |scan|
      invariant apps == ListedApps(scan[..i], store.apps)
    {
      var appData := store.GetApp(scan[i]);
      if appData.Some? {
        apps := apps + [appData.value];
      }
      assert scan[..i + 1][..i] == scan[..i];
      i := i + 1;
    }
    assert scan[..i] == scan;
  }

  /** `validateSession`: one store lookup, `false` when it misses, else the stored username. */
  method CheckSession(store: Store, token: string, now: int) returns (v: Validation)
    ensures v == ValidateSession(store.sessions, token, now)
    ensures v.SessionUser? <==> SessionKey(token) in store.sessions && now < store.sessions[SessionKey(token)].expiresAt
  {
    var sessionData := store.GetSession(SessionKey(token), now);
    if sessionData.None? {
      return NoSession;
    }
    return SessionUser(sessionData.value.username);
  }

  /** The `fetch` handler, updating the store in place. */
  method Fetch(req: Request, store: Store, random: seq<byte>, scan: seq<string>, now: int) returns (resp: Response)
    requires |random| == TokenBytes
    modifies store
    ensures (store.Snapshot(), resp) == Dispatch(old(store.Snapshot()), req, random, scan, now)
  {
    if req.path == "/get" {
      return Text(200, "OK");
    }
    if req.path == "/admin" {
      if req.httpMethod == "POST" && !req.hasActionParam {
        var username := FormGet(req.form, "username");
        var password := FormGet(req.form, "password");
        var storedUsername := store.GetUsername();
        var storedPassword := store.GetPassword();
        if username == storedUsername && password == storedPassword {
          var token := store.CreateSession(username, random, now);
          return Response(302, Some("/admin/apps"), Some(SessionCookie(token)), NoBody);
        } else {
          return Text(401, "Invalid credentials");
        }
      }
      return Response(200, None, None, LoginPage);
    }
    if req.path == "/admin/apps" {
      var session := ExtractSessionToken(req.cookie);
      if session.None? {
        return Redirect("/admin");
      }
      var username := CheckSession(store, session.value, now);
      if !Authenticated(username) {
        return Redirect("/admin");
      }
      if req.httpMethod == "POST" {
        var action := FormGet(req.form, "action");
        if action == Some("logout") {
          store.DeleteSession(SessionKey(session.value));
          return Redirect("/admin");
        }
        if action == Some("create") {
          var name := FormGet(req.form, "name");
          var existingApp := store.GetApp(AppKey(name));
          if existingApp.Some? {
            return Text(400, "Application name already exists");
          }
          store.PutApp(AppKey(name), NewApp(req.form));
        } else if action == Some("delete") {
          var name := FormGet(req.form, "name");
          store.DeleteApp(AppKey(name));
        } else if action == Some("edit") {
          var name := FormGet(req.form, "name");
          var existingApp := store.GetApp(AppKey(name));
          if existingApp.None? {
            return Text(404, "Application not found");
          }
          var appData := existingApp.value;
          appData := appData.(authPath := FormGet(req.form, "auth_path"));
          appData := appData.(apiPath := FormGet(req.form, "api_path"));
          store.PutApp(AppKey(name), appData);
        }
        return Redirect("/admin/apps");
      }
      var apps := ListApps(store, scan);
      return Response(200, None, None, AppsPage(apps));
    }
    return Text(404, "Not Found");
  }
}
