/**
 * Turning the hop descriptors into per-hop connection settings: the key
 * path for each hop, the authentication methods, and the split of a
 * descriptor "[user[:password]@]host[:port]" into user, password, host and
 * port.
 */
module Hops {
  import opened Wrappers
  import opened Diagnostics
  import opened Splitting
  import Numbers

  /** A private key parsed from a key file. */
  datatype Signer = Signer(fingerprint: string)

  /** The authentication methods offered to a hop, in order. */
  datatype AuthMethod = PublicKeys(signer: Signer) | Password(secret: string)

  /** What the front end takes from its surroundings. */
  datatype Environment = Environment(
    localUser: string,          // the name of the user running the program
    homeKeyPath: string,        // the default key file in that user's home directory
    keys: map<string, Signer>)  // the key files that can be read and parsed, by path

  /** The connection settings of one hop. */
  datatype HopConfig = HopConfig(host: string, port: int, user: string, auth: seq<AuthMethod>)

  const DEFAULT_HOST: string := "localhost"
  const DEFAULT_PORT: int := 22

  datatype Login = Login(user: string, password: Option<string>)

  /** The parts of a descriptor, the port still as text. */
  datatype Endpoint = Endpoint(login: Option<Login>, host: string, port: Option<string>)

  /**
   * The parts a split can yield: a user holds neither '@' nor ':', a
   * password no '@', a host no ':', and without a login neither host nor
   * port holds '@'.
   */
  predicate WellFormed(e: Endpoint) {
    (e.login.Some? ==>
      '@' !in e.login.value.user && ':' !in e.login.value.user &&
      (e.login.value.password.Some? ==> '@' !in e.login.value.password.value)) &&
    (e.login.None? ==> '@' !in e.host && (e.port.Some? ==> '@' !in e.port.value)) &&
    ':' !in e.host
  }

  /** The user part before '@', split on its first ':'. */
  function SplitLogin(userInfo: string): Login {
    match SplitFirst(userInfo, ':')
    case None => Login(userInfo, None)
    case Some((user, password)) => Login(user, Some(password))
  }

  function JoinLogin(login: Login): string {
    match login.password
    case None => login.user
    case Some(password) => login.user + ":" + password
  }

  /** The host part after '@', split on its first ':'. */
  function SplitHostPort(hostPort: string): (string, Option<string>) {
    match SplitFirst(hostPort, ':')
    case None => (hostPort, None)
    case Some((host, port)) => (host, Some(port))
  }

  function JoinHostPort(host: string, port: Option<string>): string {
    match port
    case None => host
    case Some(p) => host + ":" + p
  }

  /**
   * Splits on the first '@', then the text before it on the first ':' and
   * the text after it on the first ':'.
   */
  function SplitEndpoint(s: string): (e: Endpoint)
    ensures WellFormed(e)
  {
    match SplitFirst(s, '@')
    case None =>
      var (host, port) := SplitHostPort(s);
      Endpoint(None, host, port)
    case Some((userInfo, hostPort)) =>
      var (host, port) := SplitHostPort(hostPort);
      Endpoint(Some(SplitLogin(userInfo)), host, port)
  }

  /** Writes the parts back as "[user[:password]@]host[:port]". */
  function JoinEndpoint(e: Endpoint): string {
    (if e.login.Some? then JoinLogin(e.login.value) + "@" else "") + JoinHostPort(e.host, e.port)
  }

  lemma JoinSplitLogin(userInfo: string)
    ensures JoinLogin(SplitLogin(userInfo)) == userInfo
  {
  }

  lemma SplitJoinLogin(login: Login)
    requires ':' !in login.user
    ensures SplitLogin(JoinLogin(login)) == login
  {
    if login.password.Some? {
      SplitFirstAt(login.user, ':', login.password.value);
    }
  }

  lemma JoinSplitHostPort(hostPort: string)
    ensures JoinHostPort(SplitHostPort(hostPort).0, SplitHostPort(hostPort).1) == hostPort
  {
  }

  lemma SplitJoinHostPort(host: string, port: Option<string>)
    requires ':' !in host
    ensures SplitHostPort(JoinHostPort(host, port)) == (host, port)
  {
    if port.Some? {
      SplitFirstAt(host, ':', port.value);
    }
  }

  /** A descriptor is exactly the parts it splits into, nothing lost. */
  lemma JoinSplit(s: string)
    ensures JoinEndpoint(SplitEndpoint(s)) == s
  {
    match SplitFirst(s, '@')
    case None =>
      JoinSplitHostPort(s);
    case Some((userInfo, hostPort)) =>
      JoinSplitLogin(userInfo);
      JoinSplitHostPort(hostPort);
  }

  /** Well-formed parts are split back out of the text they join into. */
  lemma SplitJoin(e: Endpoint)
    requires WellFormed(e)
    ensures SplitEndpoint(JoinEndpoint(e)) == e
  {
    var hostPort := JoinHostPort(e.host, e.port);
    SplitJoinHostPort(e.host, e.port);
    if e.login.Some? {
      var userInfo := JoinLogin(e.login.value);
      SplitJoinLogin(e.login.value);
      assert '@' !in userInfo;
      assert JoinEndpoint(e) == userInfo + ['@'] + hostPort;
      SplitFirstAt(userInfo, '@', hostPort);
    } else {
      assert '@' !in hostPort;
      assert JoinEndpoint(e) == hostPort;
      assert SplitFirst(hostPort, '@').None?;
    }
  }

  /** The key path for hop k: its indexed path if it has one, else the global one. */
  function KeyPathFor(k: int, globalKey: string, indexedKeys: map<int, string>): string {
    if k in indexedKeys then indexedKeys[k] else globalKey
  }

  /** The public-key method for a key path: none for "", an error when the key cannot be loaded. */
  function KeyAuth(path: string, keys: map<string, Signer>): Result<seq<AuthMethod>, Error> {
    if path == "" then Ok([])
    else if path in keys then Ok([PublicKeys(keys[path])])
    else Err(KeyUnavailable(path))
  }

  /** The password method of a login, if it carries one. */
  function PasswordAuth(login: Option<Login>): seq<AuthMethod> {
    if login.Some? && login.value.password.Some? then [Password(login.value.password.value)] else []
  }

  /**
   * A descriptor applied on top of the defaults: its user or else the
   * local user, its password after the key methods, its host, and its port
   * parsed by Atoi or else 22.
   */
  function ApplyDescriptor(desc: string, localUser: string, keyAuth: seq<AuthMethod>): Result<HopConfig, Error> {
    var e := SplitEndpoint(desc);
    var user := if e.login.Some? then e.login.value.user else localUser;
    var auth := keyAuth + PasswordAuth(e.login);
    match e.port
    case None => Ok(HopConfig(e.host, DEFAULT_PORT, user, auth))
    case Some(text) =>
      match Numbers.Atoi(text)
      case None => Err(NotAnInteger(text))
      case Some(n) => Ok(HopConfig(e.host, n, user, auth))
  }

  /** The settings of hop k with descriptor desc; loading the key comes first. */
  function ResolveHop(k: int, desc: string, globalKey: string, indexedKeys: map<int, string>, env: Environment)
    : Result<HopConfig, Error>
  {
    match KeyAuth(KeyPathFor(k, globalKey, indexedKeys), env.keys)
    case Err(e) => Err(e)
    case Ok(keyAuth) => ApplyDescriptor(desc, env.localUser, keyAuth)
  }

  /**
   * The values of a sequence of results when all succeed, otherwise the
   * error of the first failure: the early return of a loop over them.
   */
  function Collect<T>(rs: seq<Result<T, Error>>): (r: Result<seq<T>, Error>)
    ensures r.Ok? ==> |r.value| == |rs|
  {
    if rs == [] then Ok([])
    else
      var last := |rs| - 1;
      match Collect(rs[..last])
      case Err(e) => Err(e)
      case Ok(values) =>
        match rs[last]
        case Err(e) => Err(e)
        case Ok(v) => Ok(values + [v])
  }

  /**
   * Collect succeeds exactly when every result does, and then yields their
   * values in order; otherwise it yields the error of the first failure.
   */
  lemma {:induction false} CollectMeaning<T>(rs: seq<Result<T, Error>>)
    ensures Collect(rs).Ok? <==> forall k :: 0 <= k < |rs| ==> rs[k].Ok?
    ensures Collect(rs).Ok? ==> forall k :: 0 <= k < |rs| ==> rs[k] == Ok(Collect(rs).value[k])
    ensures Collect(rs).Err? ==>
              exists k :: 0 <= k < |rs| && rs[k] == Err(Collect(rs).error) && forall j :: 0 <= j < k ==> rs[j].Ok?
    decreases |rs|
  {
    if rs != [] {
      var last := |rs| - 1;
      var prefix := rs[..last];
      assert forall k :: 0 <= k < last ==> prefix[k] == rs[k];
      CollectMeaning(prefix);
    }
  }

  /** The result of resolving each descriptor with its own hop index. */
  function HopResults(descs: seq<string>, globalKey: string, indexedKeys: map<int, string>, env: Environment)
    : (rs: seq<Result<HopConfig, Error>>)
    ensures |rs| == |descs|
    ensures forall k :: 0 <= k < |descs| ==> rs[k] == ResolveHop(k, descs[k], globalKey, indexedKeys, env)
  {
    seq(|descs|, k requires 0 <= k < |descs| => ResolveHop(k, descs[k], globalKey, indexedKeys, env))
  }

  /** Hop k does not resolve and every hop before it does. */
  predicate FirstFailure(descs: seq<string>, k: nat, globalKey: string, indexedKeys: map<int, string>, env: Environment)
    requires k < |descs|
  {
    ResolveHop(k, descs[k], globalKey, indexedKeys, env).Err? &&
    forall j :: 0 <= j < k ==> ResolveHop(j, descs[j], globalKey, indexedKeys, env).Ok?
  }

  /**
   * The settings of every hop, hop k resolved with index k; the error of
   * the first hop that does not resolve otherwise.
   */
  function Assemble(descs: seq<string>, globalKey: string, indexedKeys: map<int, string>, env: Environment)
    : (r: Result<seq<HopConfig>, Error>)
    ensures r.Ok? ==> |r.value| == |descs|
    ensures r.Ok? ==> forall k :: 0 <= k < |descs| ==>
                        ResolveHop(k, descs[k], globalKey, indexedKeys, env) == Ok(r.value[k])
    ensures r.Err? ==> exists k :: 0 <= k < |descs| && FirstFailure(descs, k, globalKey, indexedKeys, env) &&
                        ResolveHop(k, descs[k], globalKey, indexedKeys, env) == Err(r.error)
  {
    var rs := HopResults(descs, globalKey, indexedKeys, env);
    CollectMeaning(rs);
    Collect(rs)
  }

  /**
   * The settings of one hop, computed as nssh does: pick the key
   * path, load the key, start from host "localhost", port 22 and the local
   * user, then overwrite them from the descriptor.
   */
  method ConfigureHop(hopIndex: int, hostPort: string, globalKey: string, indexedKeys: map<int, string>, env: Environment)
    returns (r: Result<HopConfig, Error>)
    ensures r == ResolveHop(hopIndex, hostPort, globalKey, indexedKeys, env)
  {
    var privateKeyPath := globalKey;
    if hopIndex in indexedKeys {
      privateKeyPath := indexedKeys[hopIndex];
    }
    var signer: Option<Signer> := None;
    if privateKeyPath != "" {
      if privateKeyPath !in env.keys {
        return Err(KeyUnavailable(privateKeyPath));
      }
      signer := Some(env.keys[privateKeyPath]);
    }
    var authMethods: seq<AuthMethod> := [];
    if signer.Some? {
      authMethods := authMethods + [PublicKeys(signer.value)];
      assert authMethods == [PublicKeys(env.keys[privateKeyPath])];
    }

    assert privateKeyPath == KeyPathFor(hopIndex, globalKey, indexedKeys);
    assert KeyAuth(privateKeyPath, env.keys) == Ok(authMethods);
    ghost var e := SplitEndpoint(hostPort);
    var host := DEFAULT_HOST;
    var port := DEFAULT_PORT;
    var user := env.localUser;
    var auth := authMethods;
    var splitUserHost := SplitFirst(hostPort, '@');
    if splitUserHost.Some? {
      assert e.login == Some(SplitLogin(splitUserHost.value.0));
      assert (e.host, e.port) == SplitHostPort(splitUserHost.value.1);
      user := splitUserHost.value.0;
      host := splitUserHost.value.1;
      var splitUserPassword := SplitFirst(splitUserHost.value.0, ':');
      if splitUserPassword.Some? {
        user := splitUserPassword.value.0;
        auth := auth + [Password(splitUserPassword.value.1)];
      }
    } else {
      host := hostPort;
    }
    assert (e.host, e.port) == SplitHostPort(host);
    assert user == if e.login.Some? then e.login.value.user else env.localUser;
    assert auth == authMethods + PasswordAuth(e.login);
    var splitHostPort := SplitFirst(host, ':');
    if splitHostPort.Some? {
      var n := Numbers.Atoi(splitHostPort.value.1);
      if n.None? {
        return Err(NotAnInteger(splitHostPort.value.1));
      }
      host := splitHostPort.value.0;
      port := n.value;
    }
    r := Ok(HopConfig(host, port, user, auth));
  }

  /** The loop over the hop descriptors, stopping at the first hop that fails. */
  method AssembleHops(hostPorts: seq<string>, globalKey: string, indexedKeys: map<int, string>, env: Environment)
    returns (r: Result<seq<HopConfig>, Error>)
    ensures r == Assemble(hostPorts, globalKey, indexedKeys, env)
  {
    ghost var results := HopResults(hostPorts, globalKey, indexedKeys, env);
    var configs: seq<HopConfig> := [];
    var hopIndex := 0;
    while hopIndex < |hostPorts|
      invariant 0 <= hopIndex <= |hostPorts|
      invariant Collect(results[..hopIndex]) == Ok(configs)
    {
      var hop := ConfigureHop(hopIndex, hostPorts[hopIndex], globalKey, indexedKeys, env);
      assert results[hopIndex] == hop;
      if hop.Err? {
        CollectFirstFailure(results, hopIndex);
        return Err(hop.error);
      }
      CollectNext(results, hopIndex);
      configs := configs + [hop.value];
      hopIndex := hopIndex + 1;
    }
    assert results[..hopIndex] == results;
    r := Ok(configs);
  }

  /** When the results before k succeed and result k fails, its error is the outcome. */
  lemma CollectFirstFailure<T>(rs: seq<Result<T, Error>>, k: nat)
    requires k < |rs| && Collect(rs[..k]).Ok? && rs[k].Err?
    ensures Collect(rs) == Err(rs[k].error)
  {
    CollectMeaning(rs[..k]);
    CollectMeaning(rs);
    assert forall j :: 0 <= j < k ==> rs[..k][j] == rs[j];
    var r := Collect(rs);
    var j :| 0 <= j < |rs| && rs[j] == Err(r.error) && forall m :: 0 <= m < j ==> rs[m].Ok?;
  }

  lemma CollectNext<T>(rs: seq<Result<T, Error>>, k: nat)
    requires k < |rs| && Collect(rs[..k]).Ok? && rs[k].Ok?
    ensures Collect(rs[..k + 1]) == Ok(Collect(rs[..k]).value + [rs[k].value])
  {
    assert rs[..k + 1][..k] == rs[..k];
  }

  /** A hop with an indexed key path uses that path, whatever the global one. */
  lemma KeySelection(k: int, desc: string, globalKey: string, indexedKeys: map<int, string>, env: Environment)
    requires k in indexedKeys
    ensures ResolveHop(k, desc, globalKey, indexedKeys, env) == ResolveHop(k, desc, indexedKeys[k], map[], env)
  {
  }

  /**
   * The methods a hop offers: the key of its path first, when the path is
   * not empty, then the password of its descriptor; a key that cannot be
   * loaded fails the hop.
   */
  lemma KeyMethods(k: int, desc: string, globalKey: string, indexedKeys: map<int, string>, env: Environment)
    ensures var path := KeyPathFor(k, globalKey, indexedKeys);
      var r := ResolveHop(k, desc, globalKey, indexedKeys, env);
      && (path != "" && path !in env.keys ==> r == Err(KeyUnavailable(path)))
      && (r.Ok? && path == "" ==> forall m :: m in r.value.auth ==> m.Password?)
      && (r.Ok? && path != "" ==> |r.value.auth| > 0 && r.value.auth[0] == PublicKeys(env.keys[path]))
  {
    var path := KeyPathFor(k, globalKey, indexedKeys);
    var r := ResolveHop(k, desc, globalKey, indexedKeys, env);
    if r.Ok? {
      var keyAuth := KeyAuth(path, env.keys).value;
      assert r.value.auth == keyAuth + PasswordAuth(SplitEndpoint(desc).login);
    }
  }

  /**
   * The settings a descriptor written from its parts yields: the user
   * before the first ':' (or the local user without '@'), the password as
   * an extra method after the key, the host, and the port read by Atoi or
   * else 22; a port text Atoi refuses fails the hop.
   */
  lemma ResolveJoined(k: int, e: Endpoint, globalKey: string, indexedKeys: map<int, string>, env: Environment)
    requires WellFormed(e)
    requires KeyAuth(KeyPathFor(k, globalKey, indexedKeys), env.keys).Ok?
    ensures var keyAuth := KeyAuth(KeyPathFor(k, globalKey, indexedKeys), env.keys).value;
      var user := if e.login.Some? then e.login.value.user else env.localUser;
      var auth := keyAuth + PasswordAuth(e.login);
      ResolveHop(k, JoinEndpoint(e), globalKey, indexedKeys, env) ==
        match e.port
        case None => Ok(HopConfig(e.host, DEFAULT_PORT, user, auth))
        case Some(text) =>
          match Numbers.Atoi(text)
          case None => Err(NotAnInteger(text))
          case Some(n) => Ok(HopConfig(e.host, n, user, auth))
  {
    SplitJoin(e);
  }

  /** Worked example: "alice@host:2222" names user, host and port. */
  lemma SplitUserHostPort()
    ensures SplitEndpoint("alice@host:2222") == Endpoint(Some(Login("alice", None)), "host", Some("2222"))
  {
    var e := Endpoint(Some(Login("alice", None)), "host", Some("2222"));
    assert JoinHostPort("host", Some("2222")) == "host:2222";
    assert JoinEndpoint(e) == "alice@host:2222";
    SplitJoin(e);
  }

  /** Worked example: a bare host has no login and no port. */
  lemma SplitBareHost()
    ensures SplitEndpoint("host") == Endpoint(None, "host", None)
  {
    var e := Endpoint(None, "host", None);
    SplitJoin(e);
    assert JoinEndpoint(e) == "host";
  }

  /** Worked example: "alice:secret@host" carries the password "secret". */
  lemma SplitPassword()
    ensures SplitEndpoint("alice:secret@host") == Endpoint(Some(Login("alice", Some("secret"))), "host", None)
  {
    var e := Endpoint(Some(Login("alice", Some("secret"))), "host", None);
    assert JoinLogin(Login("alice", Some("secret"))) == "alice:secret";
    assert JoinEndpoint(e) == "alice:secret@host";
    SplitJoin(e);
  }

  /** Worked example: a signed port text is left to Atoi, which accepts it. */
  lemma SplitSignedPort()
    ensures SplitEndpoint("root@gw:-1") == Endpoint(Some(Login("root", None)), "gw", Some("-1"))
  {
    var e := Endpoint(Some(Login("root", None)), "gw", Some("-1"));
    assert JoinHostPort("gw", Some("-1")) == "gw:-1";
    assert JoinEndpoint(e) == "root@gw:-1";
    SplitJoin(e);
  }
}
