/**
 * The factory registry: a map from database type to the factory that builds its connections.
 * A registered factory is a constructor tag (`ConnectionKind`), which builds its class from
 * a configuration's host, port and database, or null (`None`): the registry's `EnumMap`
 * accepts a null value, which keeps the type among the keys but cannot build anything.
 */
module Factory {
  import opened Wrappers
  import opened Config
  import opened Connections

  /** `FACTORY_MAP`: a type mapped to `None` was registered with a null factory. */
  type Registry = map<DatabaseType, Option<ConnectionKind>>

  /** The two exceptions `createConnection` throws. */
  datatype FactoryError =
    | UnsupportedType(requested: DatabaseType)        // IllegalArgumentException
    | ClassCast(expected: ConnectionKind, actual: ConnectionKind)  // ClassCastException

  /** The `Class<T>` argument: the interface admits every connection, a concrete class only itself. */
  datatype ExpectedClass = AnyConnection | Exactly(kind: ConnectionKind)

  predicate IsInstance(expected: ExpectedClass, k: ConnectionKind) {
    match expected
    case AnyConnection => true
    case Exactly(e) => e == k
  }

  /** `FACTORY_MAP.get(t)` yields a factory rather than null: the type is a key with a non-null value. */
  predicate Buildable(registry: Registry, t: DatabaseType) {
    t in registry && registry[t].Some?
  }

  /** The registrations made when the factory class is initialised; Redis has none. */
  function DefaultRegistry(): (registry: Registry) {
    map[MySql := Some(MySqlConnection), PostgreSql := Some(PostgreSqlConnection), MongoDb := Some(MongoDbConnection)]
  }

  /** What `createConnection` decides for a registry: the class it instantiates, or the exception it throws. */
  function Resolve(registry: Registry, t: DatabaseType, expected: ExpectedClass)
    : (r: Result<ConnectionKind, FactoryError>)
    ensures r.Success? <==> Buildable(registry, t) && IsInstance(expected, registry[t].value)
    ensures r.Success? ==> r.value == registry[t].value
    ensures !Buildable(registry, t) ==> r == Failure(UnsupportedType(t))
    ensures Buildable(registry, t) && !IsInstance(expected, registry[t].value) ==>
      r == Failure(ClassCast(expected.kind, registry[t].value))
  {
    if t !in registry then Failure(UnsupportedType(t))
    else
      match registry[t]
      case None => Failure(UnsupportedType(t))
      case Some(k) =>
        match expected
        case AnyConnection => Success(k)
        case Exactly(e) => if e == k then Success(k) else Failure(ClassCast(e, k))
  }

  lemma DefaultSupportedTypes()
    ensures DefaultRegistry().Keys == {MySql, PostgreSql, MongoDb}
    ensures Redis !in DefaultRegistry()
  {
  }

  /** Each default factory builds the class that reports the type it is registered under. */
  lemma DefaultRegistryReportsType(t: DatabaseType)
    ensures t in DefaultRegistry() <==> t != Redis
    ensures t in DefaultRegistry() ==> Buildable(DefaultRegistry(), t) && TypeOf(DefaultRegistry()[t].value) == t
  {
  }

  /** With the default registry, asking for class `k` under type `t` succeeds exactly when `k` is the class of `t`. */
  lemma DefaultTypedResolve(t: DatabaseType, k: ConnectionKind)
    ensures Resolve(DefaultRegistry(), t, Exactly(k)).Success? <==> TypeOf(k) == t
  {
  }

  /**
   * Registering factory `f` for `t` adds `t` to the keys and keeps every other registration:
   * `t` can then be built exactly when `f` is not null.
   */
  lemma RegisterExtendsSupport(registry: Registry, t: DatabaseType, f: Option<ConnectionKind>, u: DatabaseType)
    ensures u in registry[t := f] <==> u == t || u in registry
    ensures Resolve(registry[t := f], u, AnyConnection).Success? <==>
      if u == t then f.Some? else Resolve(registry, u, AnyConnection).Success?
    ensures f.Some? ==> Resolve(registry[t := f], t, AnyConnection) == Success(f.value)
  {
  }

  /** `DatabaseConnectionFactory`: its static registry is the state of one shared object. */
  class ConnectionFactory {
    var registry: Registry

    constructor ()
      ensures registry == DefaultRegistry()
    {
      registry := DefaultRegistry();
    }

    /**
     * The types with a registration: those `createConnection` can build, and those
     * registered with a null factory, for which it throws.
     */
    function SupportedTypes(): (types: set<DatabaseType>)
      reads this
      ensures forall t :: t in types <==>
        Resolve(registry, t, AnyConnection).Success? || (t in registry && registry[t] == None)
    {
      registry.Keys
    }

    /** Replaces or adds the factory for `t`; `None` registers a null factory. */
    method RegisterFactory(t: DatabaseType, f: Option<ConnectionKind>)
      modifies this
      ensures registry == old(registry)[t := f]
      ensures SupportedTypes() == old(SupportedTypes()) + {t}
    {
      registry := registry[t := f];
    }

    /** The typed `createConnection`: a fresh, disconnected connection built from `config`, or the exception. */
    method CreateConnection(t: DatabaseType, config: DatabaseConfig, expected: ExpectedClass)
      returns (r: Result<Connection, FactoryError>)
      ensures Resolve(registry, t, expected).Failure? ==> r == Failure(Resolve(registry, t, expected).error)
      ensures Resolve(registry, t, expected).Success? ==>
        && r.Success? && fresh(r.value)
        && r.value.kind == registry[t].value
        && r.value.host == config.host && r.value.port == config.port && r.value.database == config.database
        && !r.value.connected
    {
      match Resolve(registry, t, expected)
      case Failure(e) =>
        r := Failure(e);
      case Success(k) =>
        var c := new Connection(k, config.host, config.port, config.database);
        r := Success(c);
    }

    /** The untyped `createConnection`: fails only when the type has no factory or a null one. */
    method CreateAnyConnection(t: DatabaseType, config: DatabaseConfig) returns (r: Result<Connection, FactoryError>)
      ensures !Buildable(registry, t) ==> r == Failure(UnsupportedType(t))
      ensures Buildable(registry, t) ==>
        && r.Success? && fresh(r.value)
        && r.value.kind == registry[t].value
        && r.value.host == config.host && r.value.port == config.port && r.value.database == config.database
        && !r.value.connected
    {
      r := CreateConnection(t, config, AnyConnection);
    }
  }
}
