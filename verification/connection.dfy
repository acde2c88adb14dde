/** Obtaining a Snowflake session (pages/01_Day1.py, and the same code with
    other names in 20_Day20.py): a handle cached in session state is reused;
    otherwise the active session is tried, then the connection entry of the
    local secrets; a failure is shown as "Connection Failed" and leaves the
    cache empty so the next rerun tries again. The custom-connection form
    checks its required fields, opens a session, queries it and closes it.
    The handle type `H` and every remote call are parameters. */
module Connection {
  import opened Wrappers

  const MissingSecretsMessage: string := "No Snowflake connection configured in secrets.toml"

  /** The secrets entry pages/01_Day1.py reads (`connections.my_example_connection`). */
  const DefaultEntry: string := "my_example_connection"

  /** Connection parameters by name. */
  type Config = map<string, string>

  /** The local secrets file: tables of connection entries, by table name. */
  datatype Secrets = Secrets(tables: map<string, map<string, Config>>)

  /** `"connections" in st.secrets and entry in st.secrets["connections"]` */
  predicate HasEntry(s: Secrets, entry: string)
  {
    "connections" in s.tables && entry in s.tables["connections"]
  }

  /** Which sources of a session a resolution consulted, in order. */
  datatype Attempt = ReusedCache | TriedActive | TriedSecrets

  datatype Resolution<H> = Resolution(handle: Result<H>, cache: Option<H>, attempts: seq<Attempt>)

  /** The resolver: `active` is what `get_active_session()` gives (an error
      when not running inside Snowflake), `create` is
      `Session.builder.configs(...).create()`. */
  function Resolve<H>(cache: Option<H>, active: Result<H>, secrets: Secrets, entry: string,
                      create: Config -> Result<H>): (r: Resolution<H>)
    ensures cache.Some? ==> r == Resolution(Ok(cache.value), cache, [ReusedCache])
    ensures cache.None? ==> 1 <= |r.attempts| <= 2 && r.attempts[0] == TriedActive
    ensures cache.None? && active.Ok? ==> r.attempts == [TriedActive]
    ensures TriedSecrets in r.attempts <==> cache.None? && active.Err?
    ensures TriedSecrets in r.attempts ==> r.attempts == [TriedActive, TriedSecrets]
    ensures r.handle.Ok? <==> r.cache.Some?
    ensures r.cache.Some? ==> r.handle == Ok(r.cache.value)
    ensures cache.None? && active.Ok? ==> r.handle == active
    ensures cache.None? && active.Err? && !HasEntry(secrets, entry) ==> r.handle == Err(MissingSecretsMessage)
    ensures cache.None? && active.Err? && HasEntry(secrets, entry) ==>
      r.handle == create(secrets.tables["connections"][entry])
  {
    match cache
    case Some(h) => Resolution(Ok(h), cache, [ReusedCache])
    case None =>
      match active
      case Ok(h) => Resolution(Ok(h), Some(h), [TriedActive])
      case Err(_) =>
        if !HasEntry(secrets, entry) then Resolution(Err(MissingSecretsMessage), None, [TriedActive, TriedSecrets])
        else
          match create(secrets.tables["connections"][entry])
          case Ok(h) => Resolution(Ok(h), Some(h), [TriedActive, TriedSecrets])
          case Err(e) => Resolution(Err(e), None, [TriedActive, TriedSecrets])
  }

  /** A cached handle is reused without consulting the active session, the
      secrets or the session builder. */
  lemma CachedHandleReused<H>(h: H, a1: Result<H>, a2: Result<H>, s1: Secrets, s2: Secrets,
                              entry: string, c1: Config -> Result<H>, c2: Config -> Result<H>)
    ensures Resolve(Some(h), a1, s1, entry, c1) == Resolve(Some(h), a2, s2, entry, c2)
    ensures Resolve(Some(h), a1, s1, entry, c1).handle == Ok(h)
  {
  }

  /** The page's first query results: version, user, role and warehouse. */
  datatype SessionInfo = SessionInfo(version: string, user: string, role: string, warehouse: string)

  datatype Status = Connected(info: SessionInfo) | ConnectionFailed(details: string)

  datatype Load<H> = Load(cache: Option<H>, status: Status)

  /** The default-connection section on one rerun: every error, from
      resolution or from the queries, is caught and shown; the handle stays
      cached when only a query failed. */
  function PageLoad<H>(cache: Option<H>, active: Result<H>, secrets: Secrets, entry: string,
                       create: Config -> Result<H>, query: H -> Result<SessionInfo>): (l: Load<H>)
    ensures l.cache == Resolve(cache, active, secrets, entry, create).cache
    ensures l.status.Connected? <==> l.cache.Some? && query(l.cache.value).Ok?
    ensures l.status.Connected? ==> l.status.info == query(l.cache.value).value
    ensures l.cache.None? ==> l.status == ConnectionFailed(Resolve(cache, active, secrets, entry, create).handle.error)
    ensures l.cache.Some? && query(l.cache.value).Err? ==> l.status == ConnectionFailed(query(l.cache.value).error)
  {
    var r := Resolve(cache, active, secrets, entry, create);
    match r.handle
    case Err(e) => Load(r.cache, ConnectionFailed(e))
    case Ok(h) =>
      match query(h)
      case Ok(info) => Load(r.cache, Connected(info))
      case Err(e) => Load(r.cache, ConnectionFailed(e))
  }

  /** After a failed resolution the next rerun starts over with the active
      session; after a successful one it reuses the handle. */
  lemma NextRerunAfterLoad<H>(cache: Option<H>, active: Result<H>, secrets: Secrets, entry: string,
                              create: Config -> Result<H>, query: H -> Result<SessionInfo>,
                              active': Result<H>, secrets': Secrets, create': Config -> Result<H>)
    ensures var l := PageLoad(cache, active, secrets, entry, create, query);
      var next := Resolve(l.cache, active', secrets', entry, create');
      (l.cache.None? ==> next.attempts[0] == TriedActive)
      && (l.cache.Some? ==> next.attempts == [ReusedCache])
  {
  }

  /** The custom-connection form. */
  datatype CustomFields = CustomFields(account: string, user: string, password: string, role: string,
                                       warehouse: string, database: string, schema: string)

  /** `account and user and password and warehouse and database`: role and
      schema are optional. */
  predicate RequiredFilled(f: CustomFields)
  {
    f.account != "" && f.user != "" && f.password != "" && f.warehouse != "" && f.database != ""
  }

  /** `connection_params`: the seven fields under their names, as typed. */
  function ConnectionParams(f: CustomFields): (c: Config)
    ensures c.Keys == {"account", "user", "password", "role", "warehouse", "database", "schema"}
    ensures c["account"] == f.account && c["user"] == f.user && c["password"] == f.password
    ensures c["role"] == f.role && c["warehouse"] == f.warehouse
    ensures c["database"] == f.database && c["schema"] == f.schema
  {
    map["account" := f.account, "user" := f.user, "password" := f.password, "role" := f.role,
        "warehouse" := f.warehouse, "database" := f.database, "schema" := f.schema]
  }

  /** The connect button's outcome. A successful test shows the version
      queried and the user, role and warehouse as typed; when closing the
      test session then raises, its error is shown below them. No handle is
      part of the outcome: the test session is closed and never cached. */
  datatype CustomOutcome =
    | FillRequired
    | CustomFailed(message: string)
    | CustomConnected(version: string, user: string, role: string, warehouse: string, closeError: Option<string>)

  function FailedMessage(e: string): string
  {
    "\U{274C} Connection failed: " + e
  }

  /** `close` is `custom_session.close()`: `Ok` when it returns, `Err` with
      the text of what it raised. */
  function CustomConnect<H>(f: CustomFields, create: Config -> Result<H>, version: H -> Result<string>,
                            close: H -> Result<()>): (o: CustomOutcome)
    ensures o.FillRequired? <==> !RequiredFilled(f)
    ensures o.CustomConnected? <==>
      RequiredFilled(f) && create(ConnectionParams(f)).Ok? && version(create(ConnectionParams(f)).value).Ok?
    ensures o.CustomConnected? ==>
      var h := create(ConnectionParams(f)).value;
      && o.version == version(h).value
      && o.user == f.user && o.role == f.role && o.warehouse == f.warehouse
      && (o.closeError.Some? <==> close(h).Err?)
      && (o.closeError.Some? ==> o.closeError.value == FailedMessage(close(h).error))
    ensures RequiredFilled(f) && create(ConnectionParams(f)).Err? ==>
      o == CustomFailed(FailedMessage(create(ConnectionParams(f)).error))
    ensures RequiredFilled(f) && create(ConnectionParams(f)).Ok? && version(create(ConnectionParams(f)).value).Err? ==>
      o == CustomFailed(FailedMessage(version(create(ConnectionParams(f)).value).error))
  {
    if !RequiredFilled(f) then FillRequired
    else
      match create(ConnectionParams(f))
      case Err(e) => CustomFailed(FailedMessage(e))
      case Ok(h) =>
        match version(h)
        case Err(e) => CustomFailed(FailedMessage(e))
        case Ok(v) =>
          var closed := match close(h) case Ok(_) => None case Err(e) => Some(FailedMessage(e));
          CustomConnected(v, f.user, f.role, f.warehouse, closed)
  }

  /** Role and schema do not decide whether the form is accepted. */
  lemma RoleAndSchemaOptional(f: CustomFields, role: string, schema: string)
    ensures RequiredFilled(f.(role := role, schema := schema)) == RequiredFilled(f)
  {
  }

  /** An incomplete form opens no session: the outcome is the same whatever
      the session builder would do. */
  lemma IncompleteFormConnectsNothing<H>(f: CustomFields, c1: Config -> Result<H>, c2: Config -> Result<H>,
                                         v1: H -> Result<string>, v2: H -> Result<string>,
                                         x1: H -> Result<()>, x2: H -> Result<()>)
    requires !RequiredFilled(f)
    ensures CustomConnect(f, c1, v1, x1) == CustomConnect(f, c2, v2, x2) == FillRequired
  {
  }

  /** One rerun of pages/01_Day1.py: the default section, then the custom
      form when its button was pressed with `fields`. */
  datatype DayOneRerun<H> = DayOneRerun(load: Load<H>, custom: Option<CustomOutcome>)

  function DayOne<H>(cache: Option<H>, active: Result<H>, secrets: Secrets, create: Config -> Result<H>,
                     query: H -> Result<SessionInfo>, pressed: Option<CustomFields>,
                     version: H -> Result<string>, close: H -> Result<()>): (r: DayOneRerun<H>)
    ensures r.load == PageLoad(cache, active, secrets, DefaultEntry, create, query)
    ensures r.custom.Some? <==> pressed.Some?
    ensures pressed.Some? ==> r.custom == Some(CustomConnect(pressed.value, create, version, close))
  {
    DayOneRerun(PageLoad(cache, active, secrets, DefaultEntry, create, query),
                match pressed
                case Some(f) => Some(CustomConnect(f, create, version, close))
                case None => None)
  }

  /** The custom form never touches the cached default session. */
  lemma CustomFormLeavesCache<H>(cache: Option<H>, active: Result<H>, secrets: Secrets, create: Config -> Result<H>,
                                 query: H -> Result<SessionInfo>, f: CustomFields, version: H -> Result<string>,
                                 close: H -> Result<()>)
    ensures DayOne(cache, active, secrets, create, query, Some(f), version, close).load.cache
            == DayOne(cache, active, secrets, create, query, None, version, close).load.cache
  {
  }
}
