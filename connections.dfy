/**
 * The database types, the connection classes and their connection strings.
 *
 * The three connection classes differ only in their URL scheme and in the type they
 * report, so they are one class `Connection` tagged with the `ConnectionKind` that
 * says which of the three it is.
 */
module Connections {
  import opened Wrappers
  import opened Decimal

  datatype DatabaseType = MySql | PostgreSql | MongoDb | Redis

  /** Which concrete connection class an object is: MySQLConnection, PostgreSQLConnection or MongoDBConnection. */
  datatype ConnectionKind = MySqlConnection | PostgreSqlConnection | MongoDbConnection

  /** The fixed type each connection class reports; no class reports Redis. */
  function TypeOf(k: ConnectionKind): (t: DatabaseType)
    ensures t != Redis
  {
    match k
    case MySqlConnection => MySql
    case PostgreSqlConnection => PostgreSql
    case MongoDbConnection => MongoDb
  }

  /** Each connection class reports a different type, so the type identifies the class. */
  lemma TypeOfInjective(k1: ConnectionKind, k2: ConnectionKind)
    ensures TypeOf(k1) == TypeOf(k2) ==> k1 == k2
  {
  }

  function Scheme(k: ConnectionKind): (scheme: string) {
    match k
    case MySqlConnection => "jdbc:mysql://"
    case PostgreSqlConnection => "jdbc:postgresql://"
    case MongoDbConnection => "mongodb://"
  }

  /** How `%s` renders a possibly-null string. */
  function Render(s: Option<string>): (text: string) {
    match s
    case Some(v) => v
    case None => "null"
  }

  /** The connection string: the class's scheme, then `host:port/database`. */
  function ConnectionUrl(k: ConnectionKind, host: Option<string>, port: int, database: Option<string>): (url: string) {
    Scheme(k) + Render(host) + ":" + IntToDecimal(port) + "/" + Render(database)
  }

  /** The pieces of a connection string, as `ParseUrl` recovers them. */
  datatype UrlParts = UrlParts(kind: ConnectionKind, host: string, port: int, database: string)

  /** The position of the first `c` in `s`, if there is one. */
  function IndexOf(s: string, c: char): (r: Option<nat>)
    ensures r.Some? ==> r.value < |s| && s[r.value] == c && c !in s[..r.value]
    ensures r.None? ==> c !in s
  {
    if s == [] then None
    else if s[0] == c then Some(0)
    else
      match IndexOf(s[1..], c)
      case Some(i) => Some(i + 1)
      case None => None
  }

  /** The connection class whose scheme starts `s`; the three schemes are prefix-free. */
  function SchemeOf(s: string): (r: Option<ConnectionKind>)
    ensures r.Some? ==> Scheme(r.value) <= s
  {
    if Scheme(MySqlConnection) <= s then Some(MySqlConnection)
    else if Scheme(PostgreSqlConnection) <= s then Some(PostgreSqlConnection)
    else if Scheme(MongoDbConnection) <= s then Some(MongoDbConnection)
    else None
  }

  /**
   * Splits a connection string back into scheme, host, port and database:
   * the host ends at the first ':' after the scheme, the port at the next '/'.
   */
  function ParseUrl(s: string): (parts: Option<UrlParts>) {
    match SchemeOf(s)
    case None => None
    case Some(k) => ParseAuthority(k, s[|Scheme(k)|..])
  }

  /** `host:port/database`, the part after the scheme. */
  function ParseAuthority(k: ConnectionKind, rest: string): (parts: Option<UrlParts>) {
    match IndexOf(rest, ':')
    case None => None
    case Some(i) =>
      match ParsePortPath(rest[i + 1..])
      case None => None
      case Some(pd) => Some(UrlParts(k, rest[..i], pd.0, pd.1))
  }

  /** `port/database`, the part after the host. */
  function ParsePortPath(tail: string): (portPath: Option<(int, string)>) {
    match IndexOf(tail, '/')
    case None => None
    case Some(j) =>
      match ParseInt(tail[..j])
      case None => None
      case Some(p) => Some((p, tail[j + 1..]))
  }

  lemma SchemeOfUrl(k: ConnectionKind, rest: string)
    ensures SchemeOf(Scheme(k) + rest) == Some(k)
  {
    var s := Scheme(k) + rest;
    match k
    case MySqlConnection =>
    case PostgreSqlConnection =>
      assert s[5] == 'p';
    case MongoDbConnection =>
      assert s[0] == 'm';
  }

  lemma {:induction false} IndexOfSplit(a: string, c: char, b: string)
    requires c !in a
    ensures IndexOf(a + [c] + b, c) == Some(|a|)
  {
    if a != [] {
      assert (a + [c] + b)[1..] == a[1..] + [c] + b;
      IndexOfSplit(a[1..], c, b);
    }
  }

  lemma PortPathRoundTrip(port: int, d: string)
    ensures ParsePortPath(IntToDecimal(port) + "/" + d) == Some((port, d))
  {
    var p := IntToDecimal(port);
    IntToDecimalCharacters(port);
    IndexOfSplit(p, '/', d);
    assert (p + ['/'] + d)[..|p|] == p;
    assert (p + ['/'] + d)[|p| + 1..] == d;
    IntToDecimalRoundTrip(port);
  }

  lemma AuthorityRoundTrip(k: ConnectionKind, h: string, port: int, d: string)
    requires ':' !in h
    ensures ParseAuthority(k, h + ":" + IntToDecimal(port) + "/" + d) == Some(UrlParts(k, h, port, d))
  {
    var tail := IntToDecimal(port) + "/" + d;
    assert h + ":" + IntToDecimal(port) + "/" + d == h + [':'] + tail;
    IndexOfSplit(h, ':', tail);
    assert (h + [':'] + tail)[..|h|] == h;
    assert (h + [':'] + tail)[|h| + 1..] == tail;
    PortPathRoundTrip(port, d);
  }

  /**
   * A connection string determines the class, the rendered host and database, and the
   * port, provided the host holds no ':' (the database may hold anything).
   */
  lemma ConnectionUrlRoundTrip(k: ConnectionKind, host: Option<string>, port: int, database: Option<string>)
    requires ':' !in Render(host)
    ensures ParseUrl(ConnectionUrl(k, host, port, database)) == Some(UrlParts(k, Render(host), port, Render(database)))
  {
    var rest := Render(host) + ":" + IntToDecimal(port) + "/" + Render(database);
    assert ConnectionUrl(k, host, port, database) == Scheme(k) + rest;
    SchemeOfUrl(k, rest);
    assert (Scheme(k) + rest)[|Scheme(k)|..] == rest;
    AuthorityRoundTrip(k, Render(host), port, Render(database));
  }

  /** Two connection strings with colon-free hosts are equal only when their parts are. */
  lemma ConnectionUrlInjective(k1: ConnectionKind, h1: Option<string>, p1: int, d1: Option<string>,
                               k2: ConnectionKind, h2: Option<string>, p2: int, d2: Option<string>)
    requires ':' !in Render(h1) && ':' !in Render(h2)
    requires ConnectionUrl(k1, h1, p1, d1) == ConnectionUrl(k2, h2, p2, d2)
    ensures k1 == k2 && Render(h1) == Render(h2) && p1 == p2 && Render(d1) == Render(d2)
  {
    ConnectionUrlRoundTrip(k1, h1, p1, d1);
    ConnectionUrlRoundTrip(k2, h2, p2, d2);
  }

  /** A database connection of one of the three classes; only `connected` changes after construction. */
  class Connection {
    const kind: ConnectionKind
    const host: Option<string>
    const port: Int32
    const database: Option<string>
    var connected: bool

    constructor (kind: ConnectionKind, host: Option<string>, port: Int32, database: Option<string>)
      ensures this.kind == kind && this.host == host && this.port == port && this.database == database
      ensures !connected
    {
      this.kind := kind;
      this.host := host;
      this.port := port;
      this.database := database;
      connected := false;
    }

    method Connect()
      modifies this
      ensures connected
    {
      connected := true;
    }

    method Disconnect()
      modifies this
      ensures !connected
    {
      connected := false;
    }

    /** Starts with the class's scheme, and for a colon-free host parses back to this connection's fields. */
    function ConnectionString(): (url: string)
      ensures Scheme(kind) <= url
      ensures ':' !in Render(host) ==> ParseUrl(url) == Some(UrlParts(kind, Render(host), port, Render(database)))
    {
      var url := ConnectionUrl(kind, host, port, database);
      assert ':' !in Render(host) ==> ParseUrl(url) == Some(UrlParts(kind, Render(host), port, Render(database))) by {
        if ':' !in Render(host) {
          ConnectionUrlRoundTrip(kind, host, port, database);
        }
      }
      url
    }

    function Type(): (t: DatabaseType)
      ensures t != Redis
    {
      TypeOf(kind)
    }
  }
}
