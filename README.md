# Connection factory and bounded connection pool

A Dafny model of the "modern factory" example: a registry that maps each database type
to the connection class it builds, the connection classes with their connection strings,
a builder for connection parameters, and a bounded pool that hands connections out
and takes them back.

- `wrappers.dfy` (`Wrappers`): `Option` stands for a Java value that may be null. `Result` stands for a call that may throw.
- `decimal.dfy` (`Decimal`): Java's `int` (`Int32`) and the `%d` rendering of ports, with a parser that inverts it.
- `config.dfy` (`Config`): `DatabaseConfig` as an immutable value. `Builder` is a class whose setters update its fields and return the builder.
- `connections.dfy` (`Connections`): `DatabaseType` and the three connection classes. They are one class, `Connection`, tagged by `ConnectionKind`. It also has the connection string and a parser that recovers its parts.
- `factory.dfy` (`Factory`): the registry as a `ConnectionFactory` object. Its `registry` field maps a type to a constructor tag, or to `None` for a null factory (the `EnumMap` accepts null values). `Resolve` is the pure decision of `createConnection`.
- `pool.dfy` (`Pool`): `ConnectionPool`. The FIFO queue of idle connections is the `seq` field `available`. The identity set of handed-out connections is the `set` field `used`. `Valid()` is the pool invariant:
  - the queue has no duplicates;
  - the queue and the used set are disjoint;
  - `|available| + |used| <= maxPoolSize` (0 when the maximum is negative);
  - every held connection carries the pool's host, port and database.
- `demo.dfy` (`Demo`): the demonstration program's two scenarios with the printing removed. Their results follow from the contracts above.

The shared, static `FACTORY_MAP` is one `ConnectionFactory` object. The pool keeps a reference to it, so registrations made elsewhere are visible to the pool.
Connection identity is Dafny object identity. This matches the Java `HashSet`, because the connection classes do not override `equals`.

The pool bounds the number of connections it holds at one time, not the number it ever creates.
After `closeAll`, `getConnection` creates new connections again.
The model follows the code here, so `Valid()` bounds `|available| + |used|` and nothing else.

## Model

| member | source | states |
|---|---|---|
| `Decimal.NatToDecimalDigits` | src/main/java/2025-06-14/ModernFactoryPattern.java:72 | the `%d` rendering of a natural number is a non-empty string of digits whose decimal value is the number, with no leading zero unless the number is 0 |
| `Decimal.IntToDecimalRoundTrip` | src/main/java/2025-06-14/ModernFactoryPattern.java:107 | parsing the `%d` rendering of any int (negative ones with a leading '-') gives back that int |
| `Decimal.IntToDecimalCharacters` | src/main/java/2025-06-14/ModernFactoryPattern.java:142 | a rendered port holds only digits and a possible leading '-', so it contains neither ':' nor '/' |
| `Connections.ConnectionUrlRoundTrip` | src/main/java/2025-06-14/ModernFactoryPattern.java:70-73 | a connection string is the class's scheme, then host ':' port '/' database: for a host without ':', parsing it yields exactly the class, host, port and database |
| `Connections.ConnectionUrlInjective` | src/main/java/2025-06-14/ModernFactoryPattern.java:105-108 | two connections with colon-free hosts have the same connection string only when class, host, port and database agree |
| `Connections.SchemeOfUrl` | src/main/java/2025-06-14/ModernFactoryPattern.java:140-143 | the three schemes (`jdbc:mysql://`, `jdbc:postgresql://`, `mongodb://`) are prefix-free: a string's scheme identifies its class |
| `Connections.Connection.ConnectionString` | src/main/java/2025-06-14/ModernFactoryPattern.java:140-143 | a connection's string starts with its class's scheme and, for a colon-free host, parses back to its own fields |
| `Connections.TypeOf` | src/main/java/2025-06-14/ModernFactoryPattern.java:110-113 | each connection class reports a fixed type, never Redis |
| `Connections.TypeOfInjective` | src/main/java/2025-06-14/ModernFactoryPattern.java:145-148 | different connection classes report different types |
| `Connections.Connection.Type` | src/main/java/2025-06-14/ModernFactoryPattern.java:75-78 | `getType` is the class's fixed type, which is never Redis |
| `Connections.Connection.constructor` | src/main/java/2025-06-14/ModernFactoryPattern.java:52-56 | a new connection keeps the given host, port and database and starts disconnected |
| `Connections.Connection.Connect` | src/main/java/2025-06-14/ModernFactoryPattern.java:59-62 | `connect` sets the connected flag |
| `Connections.Connection.Disconnect` | src/main/java/2025-06-14/ModernFactoryPattern.java:65-68 | `disconnect` clears the connected flag |
| `Config.Builder.constructor` | src/main/java/2025-06-14/ModernFactoryPattern.java:167-170 | a new builder has host "localhost", port 0, a null database and no properties |
| `Config.Builder.Host` | src/main/java/2025-06-14/ModernFactoryPattern.java:172-175 | sets the host, leaves the other fields alone, returns the same builder |
| `Config.Builder.Port` | src/main/java/2025-06-14/ModernFactoryPattern.java:177-180 | sets the port, leaves the other fields alone, returns the same builder |
| `Config.Builder.Database` | src/main/java/2025-06-14/ModernFactoryPattern.java:182-185 | sets the database, leaves the other fields alone, returns the same builder |
| `Config.Builder.Property` | src/main/java/2025-06-14/ModernFactoryPattern.java:187-190 | adds or replaces one property and keeps every other property and field |
| `Config.Builder.Build` | src/main/java/2025-06-14/ModernFactoryPattern.java:158-163 | the configuration carries the builder's current host, port, database and a copy of its properties |
| `Factory.Resolve` | src/main/java/2025-06-14/ModernFactoryPattern.java:224-243 | `createConnection` succeeds exactly when the type is registered with a non-null factory and its class is an instance of the expected class; an unregistered type or a null factory gives the unsupported-type error, and a mismatch gives the class-cast error |
| `Factory.DefaultSupportedTypes` | src/main/java/2025-06-14/ModernFactoryPattern.java:212-221 | the initial registry supports exactly MySQL, PostgreSQL and MongoDB, not Redis |
| `Factory.DefaultRegistryReportsType` | src/main/java/2025-06-14/ModernFactoryPattern.java:213-220 | a type is registered initially iff it is not Redis, and the class registered for it reports that same type |
| `Factory.DefaultTypedResolve` | src/main/java/2025-06-14/ModernFactoryPattern.java:234-240 | with the initial registry, asking type `t` for class `k` succeeds iff `k` is the class whose type is `t` |
| `Factory.RegisterExtendsSupport` | src/main/java/2025-06-14/ModernFactoryPattern.java:251-254 | after registering factory `f` for `t`, the keys are the old keys plus `t`; `t` can be built iff `f` is not null, and then it builds `f`'s class; every other type resolves as before |
| `Factory.ConnectionFactory.constructor` | src/main/java/2025-06-14/ModernFactoryPattern.java:208-221 | the registry starts as the three default registrations |
| `Factory.ConnectionFactory.SupportedTypes` | src/main/java/2025-06-14/ModernFactoryPattern.java:257-259 | a type is in the supported set iff untyped creation for it succeeds or it is registered with a null factory |
| `Factory.ConnectionFactory.RegisterFactory` | src/main/java/2025-06-14/ModernFactoryPattern.java:250-254 | the registry maps `t` to the new factory (possibly null) and the supported set gains `t`; nothing else changes |
| `Factory.ConnectionFactory.CreateConnection` | src/main/java/2025-06-14/ModernFactoryPattern.java:223-243 | on success, a fresh disconnected connection of the registered class with the configuration's host, port and database; otherwise the error `Resolve` names |
| `Factory.ConnectionFactory.CreateAnyConnection` | src/main/java/2025-06-14/ModernFactoryPattern.java:245-248 | untyped creation fails only with the unsupported-type error, and only for a type with no factory or a null one; otherwise it yields a fresh, disconnected connection of the registered class built from the configuration |
| `Pool.InitialSize` | src/main/java/2025-06-14/ModernFactoryPattern.java:278 | the number of pre-created connections is at most 3 and at most the capacity, and equals one of them |
| `Pool.ConnectionPool.constructor` | src/main/java/2025-06-14/ModernFactoryPattern.java:270-282 | the queue holds `min(3, maxPoolSize)` fresh, disconnected connections of the registered class (none when the maximum is not positive), the used set is empty, and the invariant holds |
| `Pool.ConnectionPool.Open` | src/main/java/2025-06-14/ModernFactoryPattern.java:277-281 | building a pool throws the unsupported-type error iff it must pre-create a connection for a type with no factory or a null one; otherwise the queue holds `min(3, maxPoolSize)` fresh, disconnected connections of the registered class, the used set is empty, and the invariant holds |
| `Pool.ConnectionPool.GetConnection` | src/main/java/2025-06-14/ModernFactoryPattern.java:284-297 | null iff the queue is empty and the used count has reached the maximum. Otherwise it returns the former head of the queue, or a fresh connection when the queue was empty; that connection joins the used set and is connected, the used count rises by one, and the rest of the queue keeps its order. A factory error leaves the state unchanged. The invariant is kept |
| `Pool.ConnectionPool.ReleaseConnection` | src/main/java/2025-06-14/ModernFactoryPattern.java:299-304 | a used connection leaves the used set, is disconnected and goes to the tail of the queue, so the used count falls by one and the queue count rises by one; any other connection or null changes nothing; the invariant is kept |
| `Pool.ConnectionPool.CloseAll` | src/main/java/2025-06-14/ModernFactoryPattern.java:306-311 | both collections end empty and every connection held before, queued or in use, is disconnected |
| `Pool.ConnectionPool.AvailableCount` | src/main/java/2025-06-14/ModernFactoryPattern.java:313-315 | the queued count plus the used count never exceeds the maximum |
| `Pool.ConnectionPool.UsedCount` | src/main/java/2025-06-14/ModernFactoryPattern.java:317-319 | the used count plus the queued count never exceeds the maximum |
| `Demo.FactoryScenario` | src/main/java/2025-06-14/ModernFactoryPattern.java:328-339 | a MySQL connection built for localhost:3306/myapp has the string `jdbc:mysql://localhost:3306/myapp` and reports MySQL |
| `Demo.LocalConfig` | src/main/java/2025-06-14/ModernFactoryPattern.java:351-355 | the builder chain host/port/database yields exactly that host, port and database with no properties |
| `Demo.BorrowTwoAndReturn` | src/main/java/2025-06-14/ModernFactoryPattern.java:363-371 | on a pool with nothing in use and at least two queued, two requests followed by returning both move the two former heads of the queue, in order, to its tail; the counts go from (n, 0) to (n - 2, 2) and back |
| `Demo.PoolScenario` | src/main/java/2025-06-14/ModernFactoryPattern.java:349-380 | a PostgreSQL pool of at most five has 3 queued and 0 used at the start, 1 and 2 after two requests, 3 and 0 after both are released, and 0 and 0 after `closeAll` |

## Left out

- Console output: every `System.out.println` and the printing in the demonstration program. It has no effect on state.
- The `synchronized` modifiers: the pool is modelled sequentially, one call at a time.
- Reflection in the typed `createConnection`: `Class<T>`, `isInstance` and `cast` are modelled by `ExpectedClass`. It is either the interface or one concrete class. The `getSimpleName` text of the exception message is not modelled; the error carries the two classes instead.
- Factories passed to `registerFactory` are arbitrary lambdas in the source. Here they are constructor tags (`ConnectionKind`), each building its class from the configuration's host, port and database, or null. A lambda with other behaviour is not modelled.
- `Factory.ConnectionFactory.SupportedTypes`: the source returns an unmodifiable live view of the registry's key set, which later registrations change. The model returns the key set at the time of the call.
- `Pool.ConnectionPool.constructor`: a Dafny constructor cannot throw. So it requires that the type has a non-null factory or that nothing is pre-created. The throwing case is `Pool.ConnectionPool.Open`.
- `Decimal.IntToDecimal`: `%d` is rendered with ASCII digits. Java formats with the default locale, which in some locales uses other digit characters; that is not modelled.
- The connection-string parser recovers the parts only for hosts without ':'. For other hosts, the string does not determine where the host ends.
- A null host or database is rendered as "null", as `%s` does. The parser therefore cannot tell a null host from the host "null".
- `DatabaseConfig` getters are the fields of the `DatabaseConfig` datatype. Its `properties` map is copied and never read by any factory.
- The enum's display names and driver strings: nothing in the factory or the pool reads them.
