/**
 * The pure half of the warehouse client (`SnowflakeClient` in
 * db/snowflake/connector/pyconn.py): the resource-type allow-list, the
 * statement texts it sends, the fallback to the session context, the
 * projection of listed rows and the test for a successful response.
 */
module SnowflakeSql {
  import opened Wrappers
  import opened Text

  /** The resource types `SHOW` and `USE` accept (SNOWFLAKE_RESOURCE_TYPES). */
  const ResourceTypes: seq<string> := ["DATABASES", "WAREHOUSES", "ROLES", "SCHEMAS"]

  /** A response counts as a success when its text holds this marker. */
  const SuccessMarker := "succe"

  /** The messages `_check_response` raises with, one per statement builder. */
  const WarehouseRejected := "Warehouse creation request did not go through"
  const DatabaseRejected := "Database creation request did not go through"
  const SchemaRejected := "Schema creation request did not go through"
  const TableRejected := "Table creation request did not go through"
  const CsvFormatRejected := "CSV file format creation request did not go through"
  const JsonFormatRejected := "JSON file format creation request did not go through"
  const StageRejected := "Stage creation request did not go through"

  /** The exceptions the client raises. */
  datatype Error =
    | InvalidResourceType      // ValueError: type not in the allow-list
    | MissingDatabase          // ValueError: no db_name and no current database
    | MissingSchema            // ValueError: no schema_name and no current schema
    | IndexOutOfRange          // IndexError: a listed row has no such column
    | NoneHasNoUpper           // AttributeError: `.upper()` applied to None
    | UndefinedName            // NameError: a global the module never defines
    | NotIterable              // TypeError: `in` applied to a method object
    | BadRequest(msg: string)  // the driver's BadRequest, raised by `_check_response`

  /** One row of a `SHOW` result, column by column. */
  type Row = seq<string>

  /** Python truthiness of an optional string: present and non-empty. */
  predicate Truthy(o: Option<string>)
  {
    o.Some? && o.value != ""
  }

  /**
   * The fallback every builder applies to a database or schema name: the
   * argument when it is truthy, else the current context value when that is
   * truthy, else the given ValueError.
   */
  function Resolve(arg: Option<string>, current: Option<string>, missing: Error): (r: Result<string, Error>)
    ensures r.Success? <==> Truthy(arg) || Truthy(current)
    ensures r.Success? ==> r.value != ""
    ensures r.Success? ==> (Truthy(arg) && r.value == arg.value) || (Truthy(current) && r.value == current.value)
    ensures Truthy(arg) ==> r == Success(arg.value)
    ensures r.Failure? ==> r.error == missing
  {
    if Truthy(arg) then Success(arg.value)
    else if Truthy(current) then Success(current.value)
    else Failure(missing)
  }

  /**
   * The database then the schema an object is created in; the database is
   * resolved first, so a missing database is reported before a missing schema.
   */
  function ResolveTarget(dbArg: Option<string>, schemaArg: Option<string>,
                         currentDb: Option<string>, currentSchema: Option<string>): (r: Result<(string, string), Error>)
    ensures r.Success? <==> (Truthy(dbArg) || Truthy(currentDb)) && (Truthy(schemaArg) || Truthy(currentSchema))
    ensures !Truthy(dbArg) && !Truthy(currentDb) ==> r == Failure(MissingDatabase)
    ensures (Truthy(dbArg) || Truthy(currentDb)) && !Truthy(schemaArg) && !Truthy(currentSchema) ==>
              r == Failure(MissingSchema)
    ensures r.Success? ==> (Success(r.value.0) == Resolve(dbArg, currentDb, MissingDatabase)
                            && Success(r.value.1) == Resolve(schemaArg, currentSchema, MissingSchema))
  {
    match Resolve(dbArg, currentDb, MissingDatabase)
    case Failure(e) => Failure(e)
    case Success(db) =>
      match Resolve(schemaArg, currentSchema, MissingSchema)
      case Failure(e) => Failure(e)
      case Success(sc) => Success((db, sc))
  }

  /** The allow-list check of `_show_resources` and `_use_resource`, case-insensitive. */
  predicate AllowedType(t: string)
  {
    Upper(t) in ResourceTypes
  }

  /** Every allowed type names its keyword in the plural: dropping the final S gives the keyword. */
  lemma AllowedTypeKeyword(t: string)
    requires AllowedType(t)
    ensures var u := Upper(t); |u| > 1 && u[|u| - 1] == 'S'
    ensures Keyword(t) in ["DATABASE", "WAREHOUSE", "ROLE", "SCHEMA"]
    ensures Upper(t) == Keyword(t) + "S"
  {
    var u := Upper(t);
    if u == "DATABASES" {
      assert Keyword(t) == "DATABASE";
    } else if u == "WAREHOUSES" {
      assert Keyword(t) == "WAREHOUSE";
    } else if u == "ROLES" {
      assert Keyword(t) == "ROLE";
    } else {
      assert Keyword(t) == "SCHEMA";
    }
  }

  /** The type names the client passes, lower-case to `SHOW` and upper-case to `USE`, are all allowed. */
  lemma SourceTypesAllowed()
    ensures AllowedType("roles") && AllowedType("warehouses") && AllowedType("databases") && AllowedType("schemas")
    ensures AllowedType("ROLES") && AllowedType("WAREHOUSES") && AllowedType("DATABASES") && AllowedType("SCHEMAS")
  {
    assert Upper("roles") == "ROLES";
    assert Upper("warehouses") == "WAREHOUSES";
    assert Upper("databases") == "DATABASES";
    assert Upper("schemas") == "SCHEMAS";
    UpperNoLower("ROLES");
    UpperNoLower("WAREHOUSES");
    UpperNoLower("DATABASES");
    UpperNoLower("SCHEMAS");
  }

  /** `resource_type.upper()[:-1]`: the upper-cased type without its last character. */
  function Keyword(t: string): string
  {
    var u := Upper(t);
    if |u| == 0 then "" else u[..|u| - 1]
  }

  /** `SHOW <TYPE>[ IN <SCOPE>];`, upper-cased; the scope clause only for a truthy scope. */
  function ShowSql(t: string, scope: Option<string>): string
  {
    "SHOW " + Upper(t) + (if Truthy(scope) then " IN " + Upper(scope.value) else "") + ";"
  }

  /** `USE <KEYWORD> <NAME>;`, upper-cased. */
  function UseSql(t: string, name: string): string
  {
    "USE " + Keyword(t) + " " + Upper(name) + ";"
  }

  /** The four `USE` statements the client sends, spelled out. */
  lemma UseStatements(name: string)
    ensures UseSql("ROLES", name) == "USE ROLE " + Upper(name) + ";"
    ensures UseSql("WAREHOUSES", name) == "USE WAREHOUSE " + Upper(name) + ";"
    ensures UseSql("DATABASES", name) == "USE DATABASE " + Upper(name) + ";"
    ensures UseSql("SCHEMAS", name) == "USE SCHEMA " + Upper(name) + ";"
  {
    PluralKeyword("ROLE");
    assert "ROLE" + "S" == "ROLES";
    assert "USE " + "ROLE" + " " == "USE ROLE ";
    PluralKeyword("WAREHOUSE");
    assert "WAREHOUSE" + "S" == "WAREHOUSES";
    assert "USE " + "WAREHOUSE" + " " == "USE WAREHOUSE ";
    PluralKeyword("DATABASE");
    assert "DATABASE" + "S" == "DATABASES";
    assert "USE " + "DATABASE" + " " == "USE DATABASE ";
    PluralKeyword("SCHEMA");
    assert "SCHEMA" + "S" == "SCHEMAS";
    assert "USE " + "SCHEMA" + " " == "USE SCHEMA ";
  }

  /** An upper-case plural loses exactly its final S. */
  lemma PluralKeyword(kw: string)
    requires forall i :: 0 <= i < |kw| ==> !('a' <= kw[i] <= 'z')
    ensures Keyword(kw + "S") == kw
  {
    UpperNoLower(kw + "S");
    assert (kw + "S")[..|kw|] == kw;
  }

  /** `"DB".SCHEMA`: the qualified schema name of `current_schema` and `use_schema`. */
  function QualifiedSchema(db: string, schema: string): string
  {
    "\"" + Upper(db) + "\"." + Upper(schema)
  }

  /** Splits `"DB".SCHEMA` at the first closing quote. */
  function SplitQualifiedSchema(q: string): Option<(string, string)>
  {
    if |q| == 0 || q[0] != '"' then None
    else
      var k := Find(q[1..], "\"");
      if k == -1 || 1 + k + 1 >= |q| || q[1 + k + 1] != '.' then None
      else Some((q[1..1 + k], q[1 + k + 2..]))
  }

  /**
   * A qualified schema name gives back the upper-cased database and schema,
   * provided the database name holds no quote.
   */
  lemma QualifiedSchemaRoundTrip(db: string, schema: string)
    requires '"' !in db
    ensures SplitQualifiedSchema(QualifiedSchema(db, schema)) == Some((Upper(db), Upper(schema)))
  {
    var q := QualifiedSchema(db, schema);
    var d := Upper(db);
    UpperKeepsAbsent(db, '"');
    assert q[1..] == d + ['"'] + ("." + Upper(schema));
    FindFirstSeparator(d, '"', "." + Upper(schema));
    assert q[1..1 + |d|] == d;
    assert q[1 + |d| + 2..] == Upper(schema);
  }

  /** `USE SCHEMA` on a qualified name upper-cases nothing further. */
  lemma UseSchemaStatement(db: string, schema: string)
    ensures UseSql("SCHEMAS", QualifiedSchema(db, schema)) == "USE SCHEMA " + QualifiedSchema(db, schema) + ";"
  {
    UseStatements(QualifiedSchema(db, schema));
    UpperConcat("\"" + Upper(db) + "\".", Upper(schema));
    UpperConcat("\"", Upper(db));
    UpperConcat("\"" + Upper(db), "\".");
    UpperIdempotent(db);
    UpperIdempotent(schema);
    assert Upper("\"") == "\"";
    assert Upper("\".") == "\".";
  }

  /** Python's `row[i]`: a negative index counts from the end; out of range is an IndexError. */
  function ColumnOf(row: Row, i: int): Option<string>
  {
    if 0 <= i < |row| then Some(row[i])
    else if -|row| <= i < 0 then Some(row[|row| + i])
    else None
  }

  /** `[resource[i] for resource in rows]`. */
  function Column(rows: seq<Row>, i: int): (r: Result<seq<string>, Error>)
    ensures r.Success? <==> forall k :: 0 <= k < |rows| ==> ColumnOf(rows[k], i).Some?
    ensures r.Success? ==> (|r.value| == |rows|
                            && forall k :: 0 <= k < |rows| ==> ColumnOf(rows[k], i) == Some(r.value[k]))
    ensures r.Failure? ==> r.error == IndexOutOfRange
  {
    if rows == [] then Success([])
    else
      match ColumnOf(rows[0], i)
      case None => Failure(IndexOutOfRange)
      case Some(v) =>
        match Column(rows[1..], i)
        case Failure(e) => Failure(e)
        case Success(vs) =>
          assert forall k :: 1 <= k < |rows| ==> rows[k] == rows[1..][k - 1];
          Success([v] + vs)
  }

  /** `str(resp).find("succe") != -1`. */
  predicate Acknowledged(resp: string)
  {
    Find(resp, SuccessMarker) != -1
  }

  /** `_check_response`: true when the marker occurs, otherwise BadRequest; it never returns false. */
  function CheckResponse(resp: string, msg: string): (r: Result<bool, Error>)
    ensures r.Success? <==> Occurs(resp, SuccessMarker)
    ensures r.Success? ==> r.value
    ensures r.Failure? ==> r.error == BadRequest(msg)
  {
    if Acknowledged(resp) then Success(true) else Failure(BadRequest(msg))
  }

  /** `'TRUE' if b else 'FALSE'`. */
  function Flag(b: bool): string
  {
    if b then "TRUE" else "FALSE"
  }

  /** The `COMMENT = '...'` clause, present only for a truthy comment. */
  function CommentClause(comment: Option<string>): string
  {
    if Truthy(comment) then " COMMENT = '" + comment.value + "'" else ""
  }

  /** `KEY = value ` as `create_warehouse` lists its settings. */
  function Setting(key: string, value: string): string
  {
    key + " = " + value + " "
  }

  /** The statement of `create_warehouse`; the name is sent as given, without a closing semicolon. */
  function WarehouseSql(name: string, comment: string, size: string := "XSMALL", kind: string := "STANDARD",
                        scalingPolicy: string := "STANDARD", autoSuspend: int := 300, autoResume: bool := true,
                        minClusterCount: int := 1, maxClusterCount: int := 1): string
  {
    "CREATE WAREHOUSE IF NOT EXISTS " + name + " WITH "
    + Setting("WAREHOUSE_SIZE", size)
    + Setting("WAREHOUSE_TYPE", kind)
    + Setting("AUTO_SUSPEND", IntToString(autoSuspend))
    + Setting("AUTO_RESUME", Flag(autoResume))
    + Setting("MIN_CLUSTER_COUNT", IntToString(minClusterCount))
    + Setting("MAX_CLUSTER_COUNT", IntToString(maxClusterCount))
    + Setting("SCALING_POLICY", scalingPolicy)
    + "COMMENT = '" + comment + "'"
  }

  /** With every default taken, `create_warehouse` asks for one extra-small standard cluster that suspends after 300 seconds. */
  lemma WarehouseDefaults(name: string, comment: string)
    ensures WarehouseSql(name, comment) ==
      "CREATE WAREHOUSE IF NOT EXISTS " + name + " WITH "
      + Setting("WAREHOUSE_SIZE", "XSMALL")
      + Setting("WAREHOUSE_TYPE", "STANDARD")
      + Setting("AUTO_SUSPEND", "300")
      + Setting("AUTO_RESUME", "TRUE")
      + Setting("MIN_CLUSTER_COUNT", "1")
      + Setting("MAX_CLUSTER_COUNT", "1")
      + Setting("SCALING_POLICY", "STANDARD")
      + "COMMENT = '" + comment + "'"
  {
    assert NatToString(30) == "30";
    assert IntToString(300) == "300";
    assert IntToString(1) == "1";
  }

  /** The statement of `create_database`; the name is sent as given. */
  function DatabaseSql(name: string, comment: Option<string>): string
  {
    "CREATE DATABASE IF NOT EXISTS " + name + CommentClause(comment) + ";"
  }

  /** `"DB"."SCHEMA"`, as `create_schema` writes it: quoted but not upper-cased. */
  function SchemaTarget(db: string, schema: string): string
  {
    "\"" + db + "\".\"" + schema + "\""
  }

  /** The statement of `create_schema`. */
  function SchemaSql(db: string, schema: string, comment: Option<string>, managedAccess: bool): string
  {
    var managed := " " + (if managedAccess then "WITH MANAGED ACCESS " else "");
    "CREATE SCHEMA IF NOT EXISTS " + SchemaTarget(db, schema) + managed
    + (if Truthy(comment) then "COMMENT = '" + comment.value + "'" else "") + ";"
  }

  /** `"DB"."SCHEMA"."TABLE"`, upper-cased. */
  function TableTarget(db: string, schema: string, table: string): string
  {
    "\"" + Upper(db) + "\".\"" + Upper(schema) + "\".\"" + Upper(table) + "\""
  }

  /** The opening of `create_table`: replacing needs both `to_replace` and a comment. */
  function TableOpening(comment: Option<string>, toReplace: bool): string
  {
    if Truthy(comment) && toReplace then "CREATE OR REPLACE TABLE " else "CREATE TABLE IF NOT EXISTS "
  }

  /** The statement of `create_table`. */
  function TableSql(db: string, schema: string, table: string, columns: string,
                    comment: Option<string>, toReplace: bool): string
  {
    TableOpening(comment, toReplace) + TableTarget(db, schema, table) + TableBody(columns, comment)
  }

  /** The column definitions, the optional comment and the closing semicolon. */
  function TableBody(columns: string, comment: Option<string>): string
  {
    " (" + columns + ")" + CommentClause(comment) + ";"
  }

  /**
   * What `create_table` sends: `CREATE OR REPLACE` exactly when replacing was
   * asked for and a comment is given, `CREATE TABLE IF NOT EXISTS` otherwise
   * (in particular always without a comment), then the upper-cased target.
   */
  lemma TableSqlShape(db: string, schema: string, table: string, columns: string,
                      comment: Option<string>, toReplace: bool)
    ensures var sql := TableSql(db, schema, table, columns, comment, toReplace);
            && ("CREATE OR REPLACE TABLE " <= sql <==> toReplace && Truthy(comment))
            && ("CREATE TABLE IF NOT EXISTS " <= sql <==> !(toReplace && Truthy(comment)))
            && Find(sql, TableTarget(db, schema, table)) != -1
  {
    var opening := TableOpening(comment, toReplace);
    var target := TableTarget(db, schema, table);
    var rest := TableBody(columns, comment);
    assert TableSql(db, schema, table, columns, comment, toReplace) == opening + (target + rest);
    TableOpeningsDiffer(target + rest);
    FindSpliced(opening, target, rest);
  }

  /** Neither opening of `create_table` is a prefix of a statement that starts with the other. */
  lemma TableOpeningsDiffer(x: string)
    ensures !("CREATE OR REPLACE TABLE " <= "CREATE TABLE IF NOT EXISTS " + x)
    ensures !("CREATE TABLE IF NOT EXISTS " <= "CREATE OR REPLACE TABLE " + x)
  {
    assert ("CREATE TABLE IF NOT EXISTS " + x)[7] == 'T';
    assert ("CREATE OR REPLACE TABLE " + x)[7] == 'O';
  }

  /** `"DB"."SCHEMA".NAME`, upper-cased: file formats and stages are named this way. */
  function ObjectName(db: string, schema: string, name: string): string
  {
    "\"" + Upper(db) + "\".\"" + Upper(schema) + "\"." + Upper(name)
  }

  /** The statement of `create_csv_file_format`. */
  function CsvFormatSql(name: string, compression: string := "AUTO", fieldDelimiter: string := ",",
                        recordDelimiter: string := "\\n", skipHeader: int := 0, trimSpace: bool := false,
                        nullIf: string := "\\\\N"): string
  {
    "CREATE FILE FORMAT IF NOT EXISTS " + name + " TYPE = 'CSV' COMPRESSION = '" + compression + "' "
    + "FIELD_DELIMITER = '" + fieldDelimiter + "' RECORD_DELIMITER = '" + recordDelimiter + "' "
    + "SKIP_HEADER = " + IntToString(skipHeader) + " "
    + "FIELD_OPTIONALLY_ENCLOSED_BY = 'NONE' TRIM_SPACE = " + Flag(trimSpace) + " "
    + "ERROR_ON_COLUMN_COUNT_MISMATCH = TRUE ESCAPE = 'NONE' "
    + "ESCAPE_UNENCLOSED_FIELD = '\\134' DATE_FORMAT = 'AUTO' "
    + "TIMESTAMP_FORMAT = 'AUTO' NULL_IF = ('" + nullIf + "');"
  }

  /** The statement of `create_json_file_format`. */
  function JsonFormatSql(name: string, compression: string, enableOctal: bool, allowDuplicate: bool,
                         stripOuterArray: bool, stripNullValues: bool, ignoreUtf8Errors: bool,
                         comment: Option<string>): string
  {
    "CREATE FILE FORMAT IF NOT EXISTS " + name + " TYPE = 'JSON' COMPRESSION = '" + compression + "' "
    + "ENABLE_OCTAL = " + Flag(enableOctal) + " "
    + "ALLOW_DUPLICATE = " + Flag(allowDuplicate) + " "
    + "STRIP_OUTER_ARRAY = " + Flag(stripOuterArray) + " "
    + "STRIP_NULL_VALUES = " + Flag(stripNullValues) + " "
    + "IGNORE_UTF8_ERRORS = " + Flag(ignoreUtf8Errors)
    + CommentClause(comment) + ";"
  }

  /** The statement of `create_stage_snowflake`. */
  function StageSql(name: string, comment: Option<string>): string
  {
    "CREATE STAGE IF NOT EXISTS " + name + CommentClause(comment) + ";"
  }

  /** A statement that ends in an optional comment clause and a semicolon. */
  lemma CommentClauseAtEnd(opening: string, comment: Option<string>)
    ensures var sql := opening + CommentClause(comment) + ";";
            && opening <= sql
            && (Truthy(comment) ==> sql[|sql| - |comment.value| - 2..] == comment.value + "';")
            && (!Truthy(comment) ==> sql == opening + ";")
  {
    var sql := opening + CommentClause(comment) + ";";
    assert sql[..|opening|] == opening;
    if Truthy(comment) {
      var head := opening + " COMMENT = '";
      assert sql == head + (comment.value + "';");
      assert sql[|head|..] == comment.value + "';";
    }
  }

  /**
   * The statements that end in an optional comment: the comment clause sits
   * right before the closing semicolon exactly when the comment is truthy.
   */
  lemma CommentPlacement(name: string, comment: Option<string>)
    ensures var sql := StageSql(name, comment);
            && "CREATE STAGE IF NOT EXISTS " + name <= sql
            && (Truthy(comment) ==> sql[|sql| - |comment.value| - 2..] == comment.value + "';")
            && (!Truthy(comment) ==> sql == "CREATE STAGE IF NOT EXISTS " + name + ";")
    ensures var sql := DatabaseSql(name, comment);
            && "CREATE DATABASE IF NOT EXISTS " + name <= sql
            && (Truthy(comment) ==> sql[|sql| - |comment.value| - 2..] == comment.value + "';")
            && (!Truthy(comment) ==> sql == "CREATE DATABASE IF NOT EXISTS " + name + ";")
  {
    CommentClauseAtEnd("CREATE STAGE IF NOT EXISTS " + name, comment);
    CommentClauseAtEnd("CREATE DATABASE IF NOT EXISTS " + name, comment);
  }
}
