/**
 * The demonstration program's scenarios with the console output left out: what a client
 * can conclude from the contracts of the builder, the factory and the pool alone.
 */
module Demo {
  import opened Wrappers
  import opened Decimal
  import opened Config
  import opened Connections
  import opened Factory
  import opened Pool

  /** A MySQL connection built from a builder configuration, and its connection string. */
  method FactoryScenario() returns (url: string, t: DatabaseType)
    ensures url == "jdbc:mysql://localhost:3306/myapp"
    ensures t == MySql
  {
    var b := new Builder();
    b := b.Host(Some("localhost"));
    b := b.Port(3306);
    b := b.Database(Some("myapp"));
    b := b.Property("useSSL", "true");
    var config := b.Build();
    var factory := new ConnectionFactory();
    var r := factory.CreateAnyConnection(MySql, config);
    var conn := r.value;
    conn.Connect();
    url := conn.ConnectionString();
    MySqlDemoUrl();
    t := conn.Type();
    conn.Disconnect();
  }

  lemma MySqlDemoUrl()
    ensures ConnectionUrl(MySqlConnection, Some("localhost"), 3306, Some("myapp")) == "jdbc:mysql://localhost:3306/myapp"
  {
  }

  /** The builder chain the demonstration uses for a local database: host, port and database set, no properties. */
  method LocalConfig(port: Int32, database: string) returns (config: DatabaseConfig)
    ensures config == DatabaseConfig(Some("localhost"), port, Some(database), map[])
  {
    var b := new Builder();
    b := b.Host(Some("localhost"));
    b := b.Port(port);
    b := b.Database(Some(database));
    config := b.Build();
  }

  /**
   * Two requests followed by returning both connections, first one first: the two
   * connections that headed the queue move, in order, to its tail, and the counts go
   * from (n, 0) to (n - 2, 2) and back.
   */
  method BorrowTwoAndReturn(pool: ConnectionPool) returns (afterGet: (nat, nat), afterRelease: (nat, nat))
    requires pool.Valid() && |pool.available| >= 2 && pool.used == {}
    modifies pool, pool.available
    ensures pool.Valid() && pool.used == {}
    ensures pool.available == old(pool.available)[2..] + old(pool.available)[..2]
    ensures afterGet == (|old(pool.available)| - 2, 2) && afterRelease == (|old(pool.available)|, 0)
  {
    ghost var queued := pool.available;
    assert queued[0] in queued && queued[1] in queued;
    var conn1 := pool.GetConnection();
    assert conn1 == Success(Some(queued[0])) && pool.available == queued[1..] && pool.used == {queued[0]};
    var conn2 := pool.GetConnection();
    assert conn2 == Success(Some(queued[1])) && pool.available == queued[2..] && pool.used == {queued[0], queued[1]};
    afterGet := (pool.AvailableCount(), pool.UsedCount());
    pool.ReleaseConnection(conn1.value.value);
    assert pool.available == queued[2..] + [queued[0]] && pool.used == {queued[1]};
    pool.ReleaseConnection(conn2.value.value);
    assert pool.available == queued[2..] + queued[..2];
    afterRelease := (pool.AvailableCount(), pool.UsedCount());
  }

  /**
   * A PostgreSQL pool of at most five: three idle connections to begin with, one idle and
   * two in use after two requests, three idle and none in use after both are returned,
   * and nothing after the pool is closed.
   */
  method PoolScenario() returns (initial: (nat, nat), afterGet: (nat, nat), afterRelease: (nat, nat), afterClose: (nat, nat))
    ensures initial == (3, 0) && afterGet == (1, 2) && afterRelease == (3, 0) && afterClose == (0, 0)
  {
    var config := LocalConfig(5432, "testdb");
    var factory := new ConnectionFactory();
    var pool := new ConnectionPool(PostgreSql, config, 5, factory);
    initial := (pool.AvailableCount(), pool.UsedCount());
    ghost var queued := pool.available;
    assert queued[0] in queued && queued[1] in queued && queued[2] in queued;
    afterGet, afterRelease := BorrowTwoAndReturn(pool);
    assert pool.available == [queued[2], queued[0], queued[1]];
    assert forall c :: c in pool.available ==> fresh(c);
    pool.CloseAll();
    afterClose := (pool.AvailableCount(), pool.UsedCount());
  }
}
