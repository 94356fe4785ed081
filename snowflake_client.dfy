/**
 * The stateful half of `SnowflakeClient` (db/snowflake/connector/pyconn.py):
 * the four session-context slots (role, warehouse, database, schema), the
 * `use_*` operations that move them, the existence checks those rely on,
 * and the `create_*` helpers that send one statement each.
 *
 * The driver is an oracle: a `Cursor` answers every statement through two
 * fixed functions and keeps, as ghost state, the statements sent to it, so
 * that contracts can say exactly what was sent and when nothing was.
 */
module SnowflakeConnector {
  import opened Wrappers
  import opened Text
  import opened SnowflakeSql

  /**
   * The warehouse as seen through the driver: `respond` is the first column
   * of the first row answered to a statement, as text (`fetchone()[0]`);
   * `rows` is every row answered to a statement (`fetchall()`).
   */
  datatype Oracle = Oracle(respond: string -> string, rows: string -> seq<Row>)

  /** What `_show_resources(t, column, scope)` returns against the oracle. */
  function Listing(o: Oracle, t: string, column: int, scope: Option<string>): Result<seq<string>, Error>
  {
    if AllowedType(t) then Column(o.rows(ShowSql(t, scope)), column) else Failure(InvalidResourceType)
  }

  /** The listing succeeded and holds the upper-cased name. */
  predicate Listed(listing: Result<seq<string>, Error>, name: string)
  {
    listing.Success? && Upper(name) in listing.value
  }

  /** `name.upper() in listing`, or the exception the listing raised. */
  function Membership(listing: Result<seq<string>, Error>, name: string): Result<bool, Error>
  {
    match listing
    case Success(names) => Success(Upper(name) in names)
    case Failure(e) => Failure(e)
  }

  /**
   * A name that the listed column shows for one of the answered rows is
   * found by the listing, provided every answered row has that column.
   */
  lemma ListingFinds(o: Oracle, t: string, column: int, scope: Option<string>, k: int, name: string)
    requires AllowedType(t)
    requires forall j :: 0 <= j < |o.rows(ShowSql(t, scope))| ==> ColumnOf(o.rows(ShowSql(t, scope))[j], column).Some?
    requires 0 <= k < |o.rows(ShowSql(t, scope))|
    requires ColumnOf(o.rows(ShowSql(t, scope))[k], column) == Some(Upper(name))
    ensures Listed(Listing(o, t, column, scope), name)
  {
    var listing := Column(o.rows(ShowSql(t, scope)), column);
    assert listing.value[k] == Upper(name);
  }

  /**
   * `_show_resources` as written: `_query_fetchall` reads the rows through
   * the global `sfc`, which is bound only when the module runs as a script
   * (and is then that script's one client). When the module is imported, as
   * a library is, `sfc` is unbound and every listing of an allowed type
   * raises a NameError once its statement has been executed.
   */
  function ListingAsWritten(o: Oracle, t: string, column: int, scope: Option<string>): Result<seq<string>, Error>
  {
    if AllowedType(t) then Failure(UndefinedName) else Failure(InvalidResourceType)
  }

  /**
   * The listing as written never finds a name, even one every answered row
   * would show: `role_exists`, `database_exists`, `schema_exists` and every
   * `use_*` built on them raise instead.
   */
  lemma ListingAsWrittenLosesRows(o: Oracle, t: string, column: int, scope: Option<string>, k: int, name: string)
    requires AllowedType(t)
    requires forall j :: 0 <= j < |o.rows(ShowSql(t, scope))| ==> ColumnOf(o.rows(ShowSql(t, scope))[j], column).Some?
    requires 0 <= k < |o.rows(ShowSql(t, scope))|
    requires ColumnOf(o.rows(ShowSql(t, scope))[k], column) == Some(Upper(name))
    ensures Listed(Listing(o, t, column, scope), name)
    ensures Membership(ListingAsWritten(o, t, column, scope), name) == Failure(UndefinedName)
  {
    ListingFinds(o, t, column, scope, k, name);
  }

  /**
   * `warehouse_exists` as written: the membership test is applied to the
   * method `show_warehouses` itself rather than to its result, which raises
   * a TypeError before any statement is sent.
   */
  function WarehouseExistsAsWritten(name: string): Result<bool, Error>
  {
    Failure(NotIterable)
  }

  /** For a listed warehouse the intended check answers true where the written one raises. */
  lemma WarehouseExistsAsWrittenRaises(o: Oracle, name: string)
    requires Listed(Listing(o, "warehouses", 0, None), name)
    ensures Membership(Listing(o, "warehouses", 0, None), name) == Success(true)
    ensures WarehouseExistsAsWritten(name) != Membership(Listing(o, "warehouses", 0, None), name)
  {
  }

  /** A context slot holds nothing or an upper-cased name. */
  predicate UpperSlot(slot: Option<string>)
  {
    slot.Some? ==> Upper(slot.value) == slot.value
  }

  /** A `create_*` helper's verdict on the response to its statement. */
  function Verdict(resp: string, msg: string): Outcome<Error>
  {
    match CheckResponse(resp, msg)
    case Success(_) => Pass
    case Failure(e) => Fail(e)
  }

  /** The driver's cursor, answering from an oracle and remembering what it executed. */
  class Cursor {
    const oracle: Oracle
    /** Every statement executed on this cursor, oldest first. */
    ghost var executed: seq<string>

    constructor (oracle: Oracle)
      ensures this.oracle == oracle && executed == []
    {
      this.oracle := oracle;
      executed := [];
    }

    /** `execute(sql)` followed by `fetchone()[0]`. */
    method FetchOne(sql: string) returns (resp: string)
      modifies this
      ensures executed == old(executed) + [sql]
      ensures resp == oracle.respond(sql)
    {
      executed := executed + [sql];
      resp := oracle.respond(sql);
    }

    /** `execute(sql)` followed by `fetchall()`. */
    method FetchAll(sql: string) returns (rows: seq<Row>)
      modifies this
      ensures executed == old(executed) + [sql]
      ensures rows == oracle.rows(sql)
    {
      executed := executed + [sql];
      rows := oracle.rows(sql);
    }
  }

  /** The warehouse client: credentials, the session context and a cursor. */
  class SnowflakeClient {
    const cursor: Cursor
    var user: Option<string>
    var password: Option<string>
    var account: Option<string>
    var warehouse: Option<string>
    var database: Option<string>
    var schema: Option<string>
    var role: Option<string>

    /**
     * The client's invariant: every context slot is empty or holds an
     * upper-cased name, since every assignment to a slot upper-cases.
     */
    predicate Valid()
      reads this
    {
      UpperSlot(role) && UpperSlot(warehouse) && UpperSlot(database) && UpperSlot(schema)
    }

    /** A client with no credentials and an empty session context. */
    constructor (cursor: Cursor)
      ensures this.cursor == cursor
      ensures user == None && password == None && account == None
      ensures warehouse == None && database == None && schema == None && role == None
      ensures Valid()
    {
      this.cursor := cursor;
      user, password, account := None, None, None;
      warehouse, database, schema, role := None, None, None, None;
    }

    /**
     * `open_connection`: stores the credentials and the initial context.
     * The database and schema are taken, upper-cased, only when a warehouse
     * is given; with a warehouse but no database (or no schema) the
     * `.upper()` call on None raises, after the earlier slots were written.
     */
    method OpenConnection(user: Option<string>, password: Option<string>, account: Option<string>,
                          warehouse: Option<string> := None, database: Option<string> := None,
                          schema: Option<string> := None)
      returns (r: Outcome<Error>)
      modifies this
      ensures this.user == user && this.password == password && this.account == account
      ensures this.warehouse == (if Truthy(warehouse) then Some(Upper(warehouse.value)) else None)
      ensures role == old(role)
      ensures !Truthy(warehouse) ==> r == Pass && this.database == None && this.schema == None
      ensures Truthy(warehouse) ==>
                && r == (if database.None? || schema.None? then Fail(NoneHasNoUpper) else Pass)
                && this.database == (if database.Some? then Some(Upper(database.value)) else old(this.database))
                && this.schema == (if database.Some? && schema.Some? then Some(Upper(schema.value))
                                   else old(this.schema))
      ensures CurrentWarehouse() == (if Truthy(warehouse) then Some(Upper(warehouse.value)) else None)
      ensures old(Valid()) ==> Valid()
    {
      if warehouse.Some? { UpperIdempotent(warehouse.value); }
      if database.Some? { UpperIdempotent(database.value); }
      if schema.Some? { UpperIdempotent(schema.value); }
      this.user := user;
      this.password := password;
      this.account := account;
      this.warehouse := if Truthy(warehouse) then Some(Upper(warehouse.value)) else None;
      if !Truthy(warehouse) {
        this.database := None;
        this.schema := None;
        return Pass;
      }
      if database.None? {
        return Fail(NoneHasNoUpper);
      }
      this.database := Some(Upper(database.value));
      if schema.None? {
        return Fail(NoneHasNoUpper);
      }
      this.schema := Some(Upper(schema.value));
      r := Pass;
    }

    /** `current_role`: the role when it is truthy, otherwise None. */
    function CurrentRole(): (r: Option<string>)
      reads this
      ensures r.Some? <==> Truthy(role)
      ensures r.Some? ==> r == role
      ensures Valid() && r.Some? ==> Upper(r.value) == r.value
    {
      if Truthy(role) then role else None
    }

    /** `current_warehouse`: the warehouse when it is truthy, otherwise None. */
    function CurrentWarehouse(): (r: Option<string>)
      reads this
      ensures r.Some? <==> Truthy(warehouse)
      ensures r.Some? ==> r == warehouse
      ensures Valid() && r.Some? ==> Upper(r.value) == r.value
    {
      if Truthy(warehouse) then warehouse else None
    }

    /** `current_database`: the database when it is truthy, otherwise None. */
    function CurrentDatabase(): (r: Option<string>)
      reads this
      ensures r.Some? <==> Truthy(database)
      ensures r.Some? ==> r == database
      ensures Valid() && r.Some? ==> Upper(r.value) == r.value
    {
      if Truthy(database) then database else None
    }

    /** `current_schema_name`: the schema when it is truthy, otherwise None. */
    function CurrentSchemaName(): (r: Option<string>)
      reads this
      ensures r.Some? <==> Truthy(schema)
      ensures r.Some? ==> r == schema
      ensures Valid() && r.Some? ==> Upper(r.value) == r.value
    {
      if Truthy(schema) then schema else None
    }

    /**
     * `current_schema`: `"DB".SCHEMA`, defined only when both slots are
     * truthy. Under the invariant the stored names are used as they are, and
     * the result splits back into them whenever the database has no quote.
     */
    function CurrentSchema(): (r: Option<string>)
      reads this
      ensures r.Some? <==> Truthy(database) && Truthy(schema)
      ensures r.Some? ==> r.value == QualifiedSchema(database.value, schema.value)
      ensures Valid() && r.Some? ==> r.value == "\"" + database.value + "\"." + schema.value
      ensures r.Some? && '"' !in database.value ==>
                SplitQualifiedSchema(r.value) == Some((Upper(database.value), Upper(schema.value)))
    {
      if Truthy(database) && Truthy(schema) then
        if '"' !in database.value then
          QualifiedSchemaRoundTrip(database.value, schema.value);
          Some(QualifiedSchema(database.value, schema.value))
        else
          Some(QualifiedSchema(database.value, schema.value))
      else
        None
    }

    /**
     * `_show_resources`: a type outside the allow-list raises before any
     * statement is sent; otherwise one `SHOW` is sent and the chosen column
     * of every row is returned.
     */
    method ShowResources(resourceType: string, column: int, scope: Option<string> := None)
      returns (r: Result<seq<string>, Error>)
      modifies cursor
      ensures r == Listing(cursor.oracle, resourceType, column, scope)
      ensures !AllowedType(resourceType) ==> r == Failure(InvalidResourceType)
      ensures cursor.executed == old(cursor.executed)
                + (if AllowedType(resourceType) then [ShowSql(resourceType, scope)] else [])
    {
      if !AllowedType(resourceType) {
        return Failure(InvalidResourceType);
      }
      var rows := cursor.FetchAll(ShowSql(resourceType, scope));
      r := Column(rows, column);
    }

    /** `show_roles`: the names in the second column of `SHOW ROLES;`. */
    method ShowRoles() returns (r: Result<seq<string>, Error>)
      modifies cursor
      ensures r == Listing(cursor.oracle, "roles", 1, None)
      ensures cursor.executed == old(cursor.executed) + [ShowSql("roles", None)]
    {
      SourceTypesAllowed();
      r := ShowResources("roles", 1);
    }

    /** `show_warehouses`: the names in the first column of `SHOW WAREHOUSES;`. */
    method ShowWarehouses() returns (r: Result<seq<string>, Error>)
      modifies cursor
      ensures r == Listing(cursor.oracle, "warehouses", 0, None)
      ensures cursor.executed == old(cursor.executed) + [ShowSql("warehouses", None)]
    {
      SourceTypesAllowed();
      r := ShowResources("warehouses", 0);
    }

    /** `show_databases`: the names in the second column of `SHOW DATABASES;`. */
    method ShowDatabases() returns (r: Result<seq<string>, Error>)
      modifies cursor
      ensures r == Listing(cursor.oracle, "databases", 1, None)
      ensures cursor.executed == old(cursor.executed) + [ShowSql("databases", None)]
    {
      SourceTypesAllowed();
      r := ShowResources("databases", 1);
    }

    /** `show_schemas`: `SHOW SCHEMAS`, scoped to the database when one is given. */
    method ShowSchemas(dbName: Option<string> := None) returns (r: Result<seq<string>, Error>)
      modifies cursor
      ensures r == Listing(cursor.oracle, "schemas", 1, dbName)
      ensures cursor.executed == old(cursor.executed) + [ShowSql("schemas", dbName)]
    {
      SourceTypesAllowed();
      if Truthy(dbName) {
        r := ShowResources("schemas", 1, dbName);
      } else {
        r := ShowResources("schemas", 1);
      }
    }

    /** `role_exists`. */
    method RoleExists(name: string) returns (r: Result<bool, Error>)
      modifies cursor
      ensures r == Membership(Listing(cursor.oracle, "roles", 1, None), name)
      ensures cursor.executed == old(cursor.executed) + [ShowSql("roles", None)]
    {
      var names := ShowRoles();
      r := Membership(names, name);
    }

    /**
     * `warehouse_exists`. The source tests membership in the method object
     * `self.show_warehouses` without calling it, which raises a TypeError;
     * the model calls it, as evidently intended.
     */
    method WarehouseExists(name: string) returns (r: Result<bool, Error>)
      modifies cursor
      ensures r == Membership(Listing(cursor.oracle, "warehouses", 0, None), name)
      ensures cursor.executed == old(cursor.executed) + [ShowSql("warehouses", None)]
    {
      var names := ShowWarehouses();
      r := Membership(names, name);
    }

    /** `database_exists`. */
    method DatabaseExists(name: string) returns (r: Result<bool, Error>)
      modifies cursor
      ensures r == Membership(Listing(cursor.oracle, "databases", 1, None), name)
      ensures cursor.executed == old(cursor.executed) + [ShowSql("databases", None)]
    {
      var names := ShowDatabases();
      r := Membership(names, name);
    }

    /** `schema_exists`: the schemas are listed only when the database is listed. */
    method SchemaExists(schemaName: string, dbName: string) returns (r: Result<bool, Error>)
      modifies cursor
      ensures var dbs := Listing(cursor.oracle, "databases", 1, None);
              var schemas := Listing(cursor.oracle, "schemas", 1, Some(dbName));
              && r == (if !Listed(dbs, dbName) then Membership(dbs, dbName) else Membership(schemas, schemaName))
              && cursor.executed == old(cursor.executed) + [ShowSql("databases", None)]
                   + (if Listed(dbs, dbName) then [ShowSql("schemas", Some(dbName))] else [])
    {
      var dbExists := DatabaseExists(dbName);
      if dbExists != Success(true) {
        return dbExists;
      }
      var names := ShowSchemas(Some(dbName));
      r := Membership(names, schemaName);
    }

    /**
     * `_use_resource`: a type outside the allow-list raises before any
     * statement is sent; otherwise one `USE` is sent and the result says
     * whether its response holds the success marker.
     */
    method UseResource(resourceType: string, name: string) returns (r: Result<bool, Error>)
      modifies cursor
      ensures !AllowedType(resourceType) ==>
                r == Failure(InvalidResourceType) && cursor.executed == old(cursor.executed)
      ensures AllowedType(resourceType) ==>
                && cursor.executed == old(cursor.executed) + [UseSql(resourceType, name)]
                && r == Success(Acknowledged(cursor.oracle.respond(UseSql(resourceType, name))))
    {
      if !AllowedType(resourceType) {
        return Failure(InvalidResourceType);
      }
      var resp := cursor.FetchOne(UseSql(resourceType, name));
      r := Success(Acknowledged(resp));
    }

    /**
     * `use_role`: the role slot becomes the upper-cased name exactly when the
     * role is listed and the `USE ROLE` response holds the success marker;
     * no other slot ever changes.
     */
    method UseRole(name: string) returns (r: Outcome<Error>)
      modifies this, cursor
      ensures var listing := Listing(cursor.oracle, "roles", 1, None);
              var stmt := UseSql("ROLES", name);
              && r == (if listing.Failure? then Fail(listing.error) else Pass)
              && cursor.executed == old(cursor.executed) + [ShowSql("roles", None)]
                   + (if Listed(listing, name) then [stmt] else [])
              && role == (if Listed(listing, name) && Acknowledged(cursor.oracle.respond(stmt))
                          then Some(Upper(name)) else old(role))
      ensures var listing := Listing(cursor.oracle, "roles", 1, None);
              var stmt := UseSql("ROLES", name);
              if Listed(listing, name) && Acknowledged(cursor.oracle.respond(stmt))
              then name != "" ==> CurrentRole() == Some(Upper(name))
              else CurrentRole() == old(CurrentRole())
      ensures warehouse == old(warehouse) && database == old(database) && schema == old(schema)
      ensures user == old(user) && password == old(password) && account == old(account)
      ensures old(Valid()) ==> Valid()
    {
      SourceTypesAllowed();
      UpperIdempotent(name);
      var present := RoleExists(name);
      if present.Failure? {
        return Fail(present.error);
      }
      r := Pass;
      if present.value {
        // ROLES is on the allow-list, so `_use_resource` cannot raise here.
        var used := UseResource("ROLES", name);
        if used == Success(true) {
          role := Some(Upper(name));
        }
      }
    }

    /** `use_warehouse`: as `use_role`, for the warehouse slot (listed in the first column). */
    method UseWarehouse(name: string) returns (r: Outcome<Error>)
      modifies this, cursor
      ensures var listing := Listing(cursor.oracle, "warehouses", 0, None);
              var stmt := UseSql("WAREHOUSES", name);
              && r == (if listing.Failure? then Fail(listing.error) else Pass)
              && cursor.executed == old(cursor.executed) + [ShowSql("warehouses", None)]
                   + (if Listed(listing, name) then [stmt] else [])
              && warehouse == (if Listed(listing, name) && Acknowledged(cursor.oracle.respond(stmt))
                               then Some(Upper(name)) else old(warehouse))
      ensures var listing := Listing(cursor.oracle, "warehouses", 0, None);
              var stmt := UseSql("WAREHOUSES", name);
              if Listed(listing, name) && Acknowledged(cursor.oracle.respond(stmt))
              then name != "" ==> CurrentWarehouse() == Some(Upper(name))
              else CurrentWarehouse() == old(CurrentWarehouse())
      ensures role == old(role) && database == old(database) && schema == old(schema)
      ensures user == old(user) && password == old(password) && account == old(account)
      ensures old(Valid()) ==> Valid()
    {
      SourceTypesAllowed();
      UpperIdempotent(name);
      var present := WarehouseExists(name);
      if present.Failure? {
        return Fail(present.error);
      }
      r := Pass;
      if present.value {
        // WAREHOUSES is on the allow-list, so `_use_resource` cannot raise here.
        var used := UseResource("WAREHOUSES", name);
        if used == Success(true) {
          warehouse := Some(Upper(name));
        }
      }
    }

    /** `use_database`: as `use_role`, for the database slot; the schema slot is kept. */
    method UseDatabase(name: string) returns (r: Outcome<Error>)
      modifies this, cursor
      ensures var listing := Listing(cursor.oracle, "databases", 1, None);
              var stmt := UseSql("DATABASES", name);
              && r == (if listing.Failure? then Fail(listing.error) else Pass)
              && cursor.executed == old(cursor.executed) + [ShowSql("databases", None)]
                   + (if Listed(listing, name) then [stmt] else [])
              && database == (if Listed(listing, name) && Acknowledged(cursor.oracle.respond(stmt))
                              then Some(Upper(name)) else old(database))
      ensures var listing := Listing(cursor.oracle, "databases", 1, None);
              var stmt := UseSql("DATABASES", name);
              if Listed(listing, name) && Acknowledged(cursor.oracle.respond(stmt))
              then name != "" ==> CurrentDatabase() == Some(Upper(name))
              else CurrentDatabase() == old(CurrentDatabase())
      ensures role == old(role) && warehouse == old(warehouse) && schema == old(schema)
      ensures user == old(user) && password == old(password) && account == old(account)
      ensures old(Valid()) ==> Valid()
    {
      SourceTypesAllowed();
      UpperIdempotent(name);
      var present := DatabaseExists(name);
      if present.Failure? {
        return Fail(present.error);
      }
      r := Pass;
      if present.value {
        // DATABASES is on the allow-list, so `_use_resource` cannot raise here.
        var used := UseResource("DATABASES", name);
        if used == Success(true) {
          database := Some(Upper(name));
        }
      }
    }

    /**
     * `use_schema`: without a database argument it falls back to the current
     * database, and raises before sending anything when there is none. On
     * success both the database and the schema slot are set, upper-cased;
     * otherwise nothing changes.
     */
    method UseSchema(schemaName: string, dbName: Option<string> := None) returns (r: Outcome<Error>)
      modifies this, cursor
      ensures !Truthy(dbName) && !Truthy(old(database)) ==>
                && r == Fail(MissingDatabase)
                && cursor.executed == old(cursor.executed)
                && database == old(database) && schema == old(schema)
      ensures Truthy(dbName) || Truthy(old(database)) ==>
                var db := if Truthy(dbName) then dbName.value else old(database).value;
                var dbs := Listing(cursor.oracle, "databases", 1, None);
                var schemas := Listing(cursor.oracle, "schemas", 1, Some(db));
                var found := Listed(dbs, db) && Listed(schemas, schemaName);
                var stmt := UseSql("SCHEMAS", QualifiedSchema(db, schemaName));
                var ok := found && Acknowledged(cursor.oracle.respond(stmt));
                && r == (if dbs.Failure? then Fail(dbs.error)
                         else if Listed(dbs, db) && schemas.Failure? then Fail(schemas.error)
                         else Pass)
                && cursor.executed == old(cursor.executed) + [ShowSql("databases", None)]
                     + (if Listed(dbs, db) then [ShowSql("schemas", Some(db))] else [])
                     + (if found then [stmt] else [])
                && database == (if ok then Some(Upper(db)) else old(database))
                && schema == (if ok then Some(Upper(schemaName)) else old(schema))
      ensures Truthy(dbName) || Truthy(old(database)) ==>
                var db := if Truthy(dbName) then dbName.value else old(database).value;
                var found := Listed(Listing(cursor.oracle, "databases", 1, None), db)
                             && Listed(Listing(cursor.oracle, "schemas", 1, Some(db)), schemaName);
                var stmt := UseSql("SCHEMAS", QualifiedSchema(db, schemaName));
                if found && Acknowledged(cursor.oracle.respond(stmt))
                then schemaName != "" ==> CurrentSchema() == Some(QualifiedSchema(db, schemaName))
                else CurrentSchema() == old(CurrentSchema())
      ensures role == old(role) && warehouse == old(warehouse)
      ensures user == old(user) && password == old(password) && account == old(account)
      ensures old(Valid()) ==> Valid()
    {
      SourceTypesAllowed();
      UpperIdempotent(schemaName);
      var db: string;
      if Truthy(dbName) {
        db := dbName.value;
      } else if Truthy(database) {
        db := database.value;
      } else {
        return Fail(MissingDatabase);
      }
      var present := SchemaExists(schemaName, db);
      if present.Failure? {
        return Fail(present.error);
      }
      r := Pass;
      if present.value {
        // SCHEMAS is on the allow-list, so `_use_resource` cannot raise here.
        var used := UseResource("SCHEMAS", QualifiedSchema(db, schemaName));
        UpperIdempotent(db);
        if used == Success(true) {
          database := Some(Upper(db));
          schema := Some(Upper(schemaName));
        }
      }
    }

    /** `create_warehouse`: sends its one statement and checks the response. */
    method CreateWarehouse(name: string, comment: string, size: string := "XSMALL", kind: string := "STANDARD",
                           scalingPolicy: string := "STANDARD", autoSuspend: int := 300,
                           autoResume: bool := true, minClusterCount: int := 1, maxClusterCount: int := 1)
      returns (r: Outcome<Error>)
      modifies cursor
      ensures var sql := WarehouseSql(name, comment, size, kind, scalingPolicy, autoSuspend, autoResume,
                                      minClusterCount, maxClusterCount);
              && cursor.executed == old(cursor.executed) + [sql]
              && r == Verdict(cursor.oracle.respond(sql), WarehouseRejected)
    {
      var resp := cursor.FetchOne(WarehouseSql(name, comment, size, kind, scalingPolicy, autoSuspend,
                                               autoResume, minClusterCount, maxClusterCount));
      r := Verdict(resp, WarehouseRejected);
    }

    /** `create_database`: sends its one statement and checks the response. */
    method CreateDatabase(name: string, comment: Option<string> := None) returns (r: Outcome<Error>)
      modifies cursor
      ensures var sql := DatabaseSql(name, comment);
              && cursor.executed == old(cursor.executed) + [sql]
              && r == Verdict(cursor.oracle.respond(sql), DatabaseRejected)
    {
      var resp := cursor.FetchOne(DatabaseSql(name, comment));
      r := Verdict(resp, DatabaseRejected);
    }

    /**
     * `create_schema`: the database falls back to the current one; without
     * either it raises and sends nothing.
     */
    method CreateSchema(schemaName: string, comment: Option<string> := None, dbName: Option<string> := None,
                        managedAccess: bool := false)
      returns (r: Outcome<Error>)
      modifies cursor
      ensures match Resolve(dbName, database, MissingDatabase)
              case Failure(e) => r == Fail(e) && cursor.executed == old(cursor.executed)
              case Success(db) =>
                var sql := SchemaSql(db, schemaName, comment, managedAccess);
                && cursor.executed == old(cursor.executed) + [sql]
                && r == Verdict(cursor.oracle.respond(sql), SchemaRejected)
    {
      var db := Resolve(dbName, database, MissingDatabase);
      if db.Failure? {
        return Fail(db.error);
      }
      var resp := cursor.FetchOne(SchemaSql(db.value, schemaName, comment, managedAccess));
      r := Verdict(resp, SchemaRejected);
    }

    /**
     * `create_table`: the database and schema fall back to the current ones;
     * when either is missing it raises and sends nothing.
     */
    method CreateTable(tableName: string, columns: string, dbName: Option<string> := None,
                       schemaName: Option<string> := None, comment: Option<string> := None,
                       toReplace: bool := false)
      returns (r: Outcome<Error>)
      modifies cursor
      ensures match ResolveTarget(dbName, schemaName, database, schema)
              case Failure(e) => r == Fail(e) && cursor.executed == old(cursor.executed)
              case Success((db, sc)) =>
                var sql := TableSql(db, sc, tableName, columns, comment, toReplace);
                && cursor.executed == old(cursor.executed) + [sql]
                && r == Verdict(cursor.oracle.respond(sql), TableRejected)
    {
      var target := ResolveTarget(dbName, schemaName, database, schema);
      if target.Failure? {
        return Fail(target.error);
      }
      var (db, sc) := target.value;
      var resp := cursor.FetchOne(TableSql(db, sc, tableName, columns, comment, toReplace));
      r := Verdict(resp, TableRejected);
    }

    /**
     * `create_csv_file_format`: the database and schema fall back to the
     * current ones; when either is missing it raises and sends nothing.
     */
    method CreateCsvFileFormat(formatName: string, dbName: Option<string> := None,
                               schemaName: Option<string> := None, compression: string := "AUTO",
                               fieldDelimiter: string := ",", recordDelimiter: string := "\\n",
                               skipHeader: int := 0, trimSpace: bool := false, nullIf: string := "\\\\N")
      returns (r: Outcome<Error>)
      modifies cursor
      ensures match ResolveTarget(dbName, schemaName, database, schema)
              case Failure(e) => r == Fail(e) && cursor.executed == old(cursor.executed)
              case Success((db, sc)) =>
                var sql := CsvFormatSql(ObjectName(db, sc, formatName), compression, fieldDelimiter,
                                        recordDelimiter, skipHeader, trimSpace, nullIf);
                && cursor.executed == old(cursor.executed) + [sql]
                && r == Verdict(cursor.oracle.respond(sql), CsvFormatRejected)
    {
      var target := ResolveTarget(dbName, schemaName, database, schema);
      if target.Failure? {
        return Fail(target.error);
      }
      var (db, sc) := target.value;
      var resp := cursor.FetchOne(CsvFormatSql(ObjectName(db, sc, formatName), compression, fieldDelimiter,
                                               recordDelimiter, skipHeader, trimSpace, nullIf));
      r := Verdict(resp, CsvFormatRejected);
    }

    /**
     * `create_json_file_format`: the database and schema fall back to the
     * current ones; when either is missing it raises and sends nothing.
     */
    method CreateJsonFileFormat(formatName: string, dbName: Option<string> := None,
                                schemaName: Option<string> := None, compression: string := "AUTO",
                                enableOctal: bool := false, allowDuplicate: bool := false,
                                stripOuterArray: bool := false, stripNullValues: bool := false,
                                ignoreUtf8Errors: bool := false, comment: Option<string> := None)
      returns (r: Outcome<Error>)
      modifies cursor
      ensures match ResolveTarget(dbName, schemaName, database, schema)
              case Failure(e) => r == Fail(e) && cursor.executed == old(cursor.executed)
              case Success((db, sc)) =>
                var sql := JsonFormatSql(ObjectName(db, sc, formatName), compression, enableOctal, allowDuplicate,
                                         stripOuterArray, stripNullValues, ignoreUtf8Errors, comment);
                && cursor.executed == old(cursor.executed) + [sql]
                && r == Verdict(cursor.oracle.respond(sql), JsonFormatRejected)
    {
      var target := ResolveTarget(dbName, schemaName, database, schema);
      if target.Failure? {
        return Fail(target.error);
      }
      var (db, sc) := target.value;
      var resp := cursor.FetchOne(JsonFormatSql(ObjectName(db, sc, formatName), compression, enableOctal,
                                                allowDuplicate, stripOuterArray, stripNullValues,
                                                ignoreUtf8Errors, comment));
      r := Verdict(resp, JsonFormatRejected);
    }

    /**
     * `create_stage_snowflake`: the database and schema fall back to the
     * current ones; when either is missing it raises and sends nothing. On
     * success it returns the qualified stage name.
     */
    method CreateStage(stageName: string, dbName: Option<string> := None, schemaName: Option<string> := None,
                       comment: Option<string> := None)
      returns (r: Result<string, Error>)
      modifies cursor
      ensures match ResolveTarget(dbName, schemaName, database, schema)
              case Failure(e) => r == Failure(e) && cursor.executed == old(cursor.executed)
              case Success((db, sc)) =>
                var name := ObjectName(db, sc, stageName);
                var sql := StageSql(name, comment);
                && cursor.executed == old(cursor.executed) + [sql]
                && r == (if Acknowledged(cursor.oracle.respond(sql)) then Success(name)
                         else Failure(BadRequest(StageRejected)))
    {
      var target := ResolveTarget(dbName, schemaName, database, schema);
      if target.Failure? {
        return Failure(target.error);
      }
      var (db, sc) := target.value;
      var name := ObjectName(db, sc, stageName);
      var resp := cursor.FetchOne(StageSql(name, comment));
      var checked := CheckResponse(resp, StageRejected);
      if checked.Failure? {
        return Failure(checked.error);
      }
      r := Success(name);
    }
  }
}
