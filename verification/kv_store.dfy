/**
 * The key-value store the worker keeps its state in. One namespace holds three
 * key families: `session:{token}` (a username with a 900-second lifetime),
 * `app:{name}` (a registered client record) and the two fixed credential keys
 * `username` and `password`. The families are kept as separate typed
 * collections; session and application maps are keyed by the full store key.
 */
module Kv {
  import opened Wrappers
  import opened HexToken

  /** Session lifetime in seconds (`15 * 60`). */
  const SessionTtl: int := 15 * 60

  /** A stored session: the username it was created for and the logical time it expires. */
  datatype Session = Session(username: Option<string>, expiresAt: int)

  /** A stored application record; any field may be JavaScript `null`. */
  datatype App = App(name: Option<string>, clientId: Option<string>, authPath: Option<string>, apiPath: Option<string>)

  /** The whole store as a value. */
  datatype KvState = KvState(
    sessions: map<string, Session>,
    apps: map<string, App>,
    username: Option<string>,
    password: Option<string>)

  /** A template literal's rendering of a possibly-null value. */
  function Interpolate(v: Option<string>): string {
    match v
    case None => "null"
    case Some(s) => s
  }

  function SessionKey(token: string): (key: string)
    ensures |key| == 8 + |token| && key[..8] == "session:" && key[8..] == token
  {
    "session:" + token
  }

  function AppKey(name: Option<string>): (key: string)
    ensures IsAppKey(key) && key[4..] == Interpolate(name)
  {
    "app:" + Interpolate(name)
  }

  predicate IsAppKey(key: string) {
    |key| >= 4 && key[..4] == "app:"
  }

  /** The session and application families never share a key. */
  lemma KeyFamiliesDisjoint(token: string, name: Option<string>)
    ensures SessionKey(token) != AppKey(name)
  {
    assert SessionKey(token)[0] == 's' && AppKey(name)[0] == 'a';
  }

  /** Distinct tokens have distinct session keys. */
  lemma SessionKeyInjective(a: string, b: string)
    requires SessionKey(a) == SessionKey(b)
    ensures a == b
  {
    assert a == SessionKey(a)[8..];
  }

  /** Two names share an application key iff they render alike, so an absent name and "null" collide. */
  lemma AppKeyCollision(a: Option<string>, b: Option<string>)
    ensures AppKey(a) == AppKey(b) <==> Interpolate(a) == Interpolate(b)
    ensures AppKey(None) == AppKey(Some("null"))
  {
    if AppKey(a) == AppKey(b) {
      assert Interpolate(a) == AppKey(a)[4..];
    }
  }

  /** What `validateSession` returns: `false`, or the stored (possibly null) username. */
  datatype Validation = NoSession | SessionUser(username: Option<string>)

  /**
   * `validateSession`: the username stored under `session:{token}` while the
   * entry is live; the store no longer returns an expired entry.
   */
  function ValidateSession(sessions: map<string, Session>, token: string, now: int): Validation {
    var key := SessionKey(token);
    if key in sessions && now < sessions[key].expiresAt then SessionUser(sessions[key].username)
    else NoSession
  }

  /** JavaScript truthiness of the validation result (`!username` is the gate). */
  predicate Authenticated(v: Validation) {
    v.SessionUser? && v.username.Some? && v.username.value != ""
  }

  /**
   * The records the listing loop collects: for each scanned key in order, the
   * stored record if the lookup finds one; keys whose lookup misses are skipped.
   */
  function ListedApps(keys: seq<string>, apps: map<string, App>): (listed: seq<App>)
    ensures |listed| <= |keys|
  {
    if keys == [] then []
    else
      var last := keys[|keys| - 1];
      ListedApps(keys[..|keys| - 1], apps) + (if last in apps then [apps[last]] else [])
  }

  /** The store, updated in place by `put` and `delete`. */
  class Store {
    var sessions: map<string, Session>
    var apps: map<string, App>
    var username: Option<string>
    var password: Option<string>

    /** A store whose credential keys were provisioned out of band. */
    constructor (username: Option<string>, password: Option<string>)
      ensures Snapshot() == KvState(map[], map[], username, password)
    {
      this.sessions := map[];
      this.apps := map[];
      this.username := username;
      this.password := password;
    }

    function Snapshot(): KvState
      reads this
    {
      KvState(sessions, apps, username, password)
    }

    /** `createSession`: a fresh token, stored with the username for SessionTtl seconds. */
    method CreateSession(user: Option<string>, random: seq<byte>, now: int) returns (token: string)
      requires |random| == TokenBytes
      modifies this
      ensures token == GenerateSecureToken(random)
      ensures sessions == old(sessions)[SessionKey(token) := Session(user, now + SessionTtl)]
      ensures apps == old(apps) && username == old(username) && password == old(password)
    {
      token := GenerateSecureToken(random);
      sessions := sessions[SessionKey(token) := Session(user, now + SessionTtl)];
    }

    /** `delete` of a session key; deleting a missing key is not an error. */
    method DeleteSession(key: string)
      modifies this
      ensures sessions == old(sessions) - {key}
      ensures apps == old(apps) && username == old(username) && password == old(password)
    {
      sessions := sessions - {key};
    }

    /** `get` of a session key: the entry while it is live; the store no longer returns an expired one. */
    method GetSession(key: string, now: int) returns (session: Option<Session>)
      ensures session.Some? <==> key in sessions && now < sessions[key].expiresAt
      ensures session.Some? ==> session.value == sessions[key]
    {
      session := if key in sessions && now < sessions[key].expiresAt then Some(sessions[key]) else None;
    }

    /** `get('username')`: the provisioned username, or null. */
    method GetUsername() returns (value: Option<string>)
      ensures value == username
    {
      value := username;
    }

    /** `get('password')`: the provisioned password, or null. */
    method GetPassword() returns (value: Option<string>)
      ensures value == password
    {
      value := password;
    }

    /** `get` of an application key. */
    method GetApp(key: string) returns (app: Option<App>)
      ensures app.Some? <==> key in apps
      ensures app.Some? ==> app.value == apps[key]
    {
      app := if key in apps then Some(apps[key]) else None;
    }

    /** `put` of an application key. */
    method PutApp(key: string, app: App)
      modifies this
      ensures apps == old(apps)[key := app]
      ensures sessions == old(sessions) && username == old(username) && password == old(password)
    {
      apps := apps[key := app];
    }

    /** `delete` of an application key; deleting a missing key is not an error. */
    method DeleteApp(key: string)
      modifies this
      ensures apps == old(apps) - {key}
      ensures sessions == old(sessions) && username == old(username) && password == old(password)
    {
      apps := apps - {key};
    }
  }
}
