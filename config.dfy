/**
 * Connection parameters (`DatabaseConfig`) and the fluent `Builder` that assembles them.
 * A Java `String` that may be null is an `Option<string>`.
 */
module Config {
  import opened Wrappers
  import opened Decimal

  /** An immutable snapshot of the builder's fields; `properties` is a copy, not shared. */
  datatype DatabaseConfig = DatabaseConfig(
    host: Option<string>,
    port: Int32,
    database: Option<string>,
    properties: map<string, string>)

  /**
   * The builder's fields start at their Java initial values: host "localhost",
   * port 0, database null and no properties. Every setter returns the builder
   * itself so that calls can be chained.
   */
  class Builder {
    var host: Option<string>
    var port: Int32
    var database: Option<string>
    var properties: map<string, string>

    constructor ()
      ensures host == Some("localhost") && port == 0 && database == None && properties == map[]
    {
      host := Some("localhost");
      port := 0;
      database := None;
      properties := map[];
    }

    method Host(h: Option<string>) returns (self: Builder)
      modifies this
      ensures self == this
      ensures host == h
      ensures port == old(port) && database == old(database) && properties == old(properties)
    {
      host := h;
      self := this;
    }

    method Port(p: Int32) returns (self: Builder)
      modifies this
      ensures self == this
      ensures port == p
      ensures host == old(host) && database == old(database) && properties == old(properties)
    {
      port := p;
      self := this;
    }

    method Database(d: Option<string>) returns (self: Builder)
      modifies this
      ensures self == this
      ensures database == d
      ensures host == old(host) && port == old(port) && properties == old(properties)
    {
      database := d;
      self := this;
    }

    /** `put` semantics: a later value for the same key replaces the earlier one. */
    method Property(key: string, value: string) returns (self: Builder)
      modifies this
      ensures self == this
      ensures properties.Keys == old(properties).Keys + {key}
      ensures properties[key] == value
      ensures forall k :: k in old(properties) && k != key ==> properties[k] == old(properties)[k]
      ensures host == old(host) && port == old(port) && database == old(database)
    {
      properties := properties[key := value];
      self := this;
    }

    /** A configuration holding the builder's current values; the builder itself is left as it is. */
    method Build() returns (config: DatabaseConfig)
      ensures config.host == host && config.port == port && config.database == database
      ensures config.properties == properties
    {
      config := DatabaseConfig(host, port, database, properties);
    }
  }
}
