/**
 * `DatabaseConnectionPool`: a bounded pool over the factory. Idle connections wait in a
 * FIFO queue (`available`), handed-out ones sit in an identity set (`used`). A new
 * connection is made only when the queue is empty and fewer than `maxPoolSize` are in use.
 */
module Pool {
  import opened Wrappers
  import opened Decimal
  import opened Config
  import opened Connections
  import opened Factory

  function Min(a: int, b: int): (m: int) {
    if a <= b then a else b
  }

  /** The most connections a pool with this `maxPoolSize` can hold: a negative maximum admits none. */
  function Capacity(maxPoolSize: int): (n: nat) {
    if maxPoolSize < 0 then 0 else maxPoolSize
  }

  /** How many connections the constructor creates up front: `Math.min(3, maxPoolSize)` iterations, none if that is negative. */
  function InitialSize(maxPoolSize: int): (n: nat)
    ensures n <= 3 && n <= Capacity(maxPoolSize)
    ensures n == 3 || n == Capacity(maxPoolSize)
  {
    var m := Min(3, maxPoolSize);
    if m < 0 then 0 else m
  }

  predicate Distinct<T(==)>(s: seq<T>) {
    forall i, j :: 0 <= i < j < |s| ==> s[i] != s[j]
  }

  class ConnectionPool {
    const dbType: DatabaseType
    const config: DatabaseConfig
    const maxPoolSize: Int32
    /** The factory registry, shared with everyone else who uses it. */
    const factory: ConnectionFactory
    var available: seq<Connection>
    var used: set<Connection>

    /** Every connection the pool holds, idle or handed out. */
    ghost function Held(): set<Connection>
      reads this
    {
      (set c | c in available) + used
    }

    /** A connection built from this pool's configuration. */
    predicate FromConfig(c: Connection) {
      c.host == config.host && c.port == config.port && c.database == config.database
    }

    /**
     * The pool invariant: no connection is queued twice or both queued and in use, the
     * pool never holds more than `maxPoolSize` connections, and all of them were built
     * from its configuration.
     */
    ghost predicate Valid()
      reads this
    {
      && Distinct(available)
      && (forall i :: 0 <= i < |available| ==> available[i] !in used)
      && |available| + |used| <= Capacity(maxPoolSize)
      && (forall i :: 0 <= i < |available| ==> FromConfig(available[i]))
      && (forall c :: c in used ==> FromConfig(c))
    }

    /**
     * Fills the queue with `Math.min(3, maxPoolSize)` new connections. Creating one
     * throws when `dbType` has no factory or a null one; `Open` models that case.
     */
    constructor (dbType: DatabaseType, config: DatabaseConfig, maxPoolSize: Int32, factory: ConnectionFactory)
      requires maxPoolSize <= 0 || Buildable(factory.registry, dbType)
      ensures Valid()
      ensures this.dbType == dbType && this.config == config && this.maxPoolSize == maxPoolSize && this.factory == factory
      ensures |available| == InitialSize(maxPoolSize) && used == {}
      ensures forall c :: c in available ==> fresh(c) && !c.connected && c.kind == factory.registry[dbType].value
    {
      var created: seq<Connection> := [];
      var i := 0;
      while i < Min(3, maxPoolSize)
        invariant 0 <= i <= InitialSize(maxPoolSize) && |created| == i
        invariant Distinct(created)
        invariant forall c :: c in created ==> fresh(c) && !c.connected && c.kind == factory.registry[dbType].value
        invariant forall c :: c in created ==> c.host == config.host && c.port == config.port && c.database == config.database
      {
        var r := factory.CreateAnyConnection(dbType, config);
        created := created + [r.value];
        i := i + 1;
      }
      this.dbType := dbType;
      this.config := config;
      this.maxPoolSize := maxPoolSize;
      this.factory := factory;
      available := created;
      used := {};
    }

    /** The constructor together with the exception it throws when `dbType` has no factory, or a null one. */
    static method Open(dbType: DatabaseType, config: DatabaseConfig, maxPoolSize: Int32, factory: ConnectionFactory)
      returns (r: Result<ConnectionPool, FactoryError>)
      ensures r.Failure? <==> maxPoolSize > 0 && !Buildable(factory.registry, dbType)
      ensures r.Failure? ==> r.error == UnsupportedType(dbType)
      ensures r.Success? ==>
        && fresh(r.value) && r.value.Valid()
        && r.value.dbType == dbType && r.value.config == config
        && r.value.maxPoolSize == maxPoolSize && r.value.factory == factory
        && |r.value.available| == InitialSize(maxPoolSize) && r.value.used == {}
        && (forall c :: c in r.value.available ==> fresh(c) && !c.connected && c.kind == factory.registry[dbType].value)
    {
      if maxPoolSize > 0 && !Buildable(factory.registry, dbType) {
        r := Failure(UnsupportedType(dbType));
      } else {
        var pool := new ConnectionPool(dbType, config, maxPoolSize, factory);
        r := Success(pool);
      }
    }

    /**
     * Hands out the connection at the head of the queue, first creating one if the queue
     * is empty and fewer than `maxPoolSize` are in use. `Success(None)` is the Java null:
     * the queue is empty and the pool is at its limit. `Failure` is the factory's exception.
     */
    method GetConnection() returns (r: Result<Option<Connection>, FactoryError>)
      requires Valid()
      modifies this, if available == [] then {} else {available[0]}
      ensures Valid()
      ensures r == Success(None) <==> old(available) == [] && old(|used|) >= maxPoolSize
      ensures r.Failure? <==> old(available) == [] && old(|used|) < maxPoolSize && !Buildable(factory.registry, dbType)
      ensures r.Failure? ==> r.error == UnsupportedType(dbType)
      ensures r == Success(None) || r.Failure? ==> available == old(available) && used == old(used)
      ensures old(available) != [] ==> r == Success(Some(old(available)[0])) && available == old(available)[1..]
      ensures old(available) == [] && r.Success? && r.value.Some? ==>
        && fresh(r.value.value) && available == []
        && r.value.value.kind == factory.registry[dbType].value && FromConfig(r.value.value)
      ensures r.Success? && r.value.Some? ==>
        && r.value.value !in old(used) && used == old(used) + {r.value.value}
        && |used| == old(|used|) + 1 && r.value.value.connected
    {
      if available == [] && |used| < maxPoolSize {
        var created := factory.CreateAnyConnection(dbType, config);
        if created.Failure? {
          r := Failure(created.error);
          return;
        }
        available := available + [created.value];
      }
      if available == [] {
        r := Success(None);
        return;
      }
      var c := available[0];
      available := available[1..];
      used := used + {c};
      c.Connect();
      r := Success(Some(c));
    }

    /**
     * Returns a handed-out connection: it leaves `used`, is disconnected and joins the
     * tail of the queue. A connection (or null) that is not in use is ignored.
     */
    method ReleaseConnection(c: Connection?)
      requires Valid()
      modifies this, c
      ensures Valid()
      ensures old(c in used) ==>
        && used == old(used) - {c} && available == old(available) + [c] && !c.connected
        && |used| == old(|used|) - 1 && |available| == old(|available|) + 1
      ensures old(c !in used) ==> used == old(used) && available == old(available)
      ensures old(c !in used) && c != null ==> c.connected == old(c.connected)
    {
      if c != null && c in used {
        used := used - {c};
        c.Disconnect();
        available := available + [c];
      }
    }

    /** Disconnects every queued and every handed-out connection and empties the pool. */
    method CloseAll()
      requires Valid()
      modifies this, available, used
      ensures Valid()
      ensures available == [] && used == {}
      ensures forall c :: c in old(Held()) ==> !c.connected
    {
      var i := 0;
      while i < |available|
        modifies available
        invariant 0 <= i <= |available|
        invariant forall j :: 0 <= j < i ==> !available[j].connected
      {
        available[i].Disconnect();
        i := i + 1;
      }
      var rest := used;
      while rest != {}
        modifies used
        invariant rest <= used
        invariant forall c :: c in used && c !in rest ==> !c.connected
        invariant forall j :: 0 <= j < |available| ==> !available[j].connected
        decreases rest
      {
        var c :| c in rest;
        c.Disconnect();
        rest := rest - {c};
      }
      available := [];
      used := {};
    }

    /** `getAvailableCount`: together with the in-use count it stays within the pool's capacity. */
    function AvailableCount(): (n: nat)
      requires Valid()
      reads this
      ensures n + |used| <= Capacity(maxPoolSize)
    {
      |available|
    }

    /** `getUsedCount`: together with the queued count it stays within the pool's capacity. */
    function UsedCount(): (n: nat)
      requires Valid()
      reads this
      ensures |available| + n <= Capacity(maxPoolSize)
    {
      |used|
    }
  }
}
