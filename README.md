# Data-pipeline clients: Snowflake session context and Azure resource groups

This project models the two stateful clients at the core of a small data pipeline:

- `SnowflakeClient` (db/snowflake/connector/pyconn.py) keeps a session context: the
  current role, warehouse, database and schema. The `use_*` operations move that
  context only after a `SHOW` listing contains the name and the `USE` response holds
  the success marker `succe`. The `create_*` helpers each send one statement. Every
  statement is built from its arguments, falling back on the context where the
  source does. The response is then checked for the marker.
- `AZResourceGroup` (azureclient/rg.py) creates or updates one named resource group
  and deletes it. A delete is a bounded poll loop over a long-running operation.

Modules:

- `Wrappers` holds Option/Result/Outcome. A raised exception becomes a `Failure`/`Fail` value.
- `Text` covers Python's `str.upper()`, `str.find()` and `str(int)` over `seq<char>`.
- `SnowflakeSql` holds the pure part of the Snowflake client:
  - the allow-list;
  - the statement builders;
  - the context fallback;
  - the row projection;
  - `_check_response`.
- `SnowflakeConnector` holds the two classes:
  - `Cursor`, the driver. It answers from a fixed `Oracle` and keeps a ghost log of the statements it executed.
  - `SnowflakeClient`, with the credential and context fields.
- `ResourceGroup` holds the `AzResourceGroup` class.

The remote services are inputs:

- the Snowflake driver's answers are the oracle's `respond` and `rows`;
- `exists()` / `check_existence` answers are booleans;
- the create-or-update reply is an `Option<Group>`;
- `done()` is a function of the number of waits performed.

## Model

| member | source | states |
|---|---|---|
| Text.Find | db/snowflake/connector/pyconn.py:247 | `str.find`: the least index where the pattern occurs, and -1 exactly when it occurs nowhere |
| Text.IntToStringRoundTrip | db/snowflake/connector/pyconn.py:79-84 | the integers spliced into the warehouse statement read back as the same numbers |
| Text.UpperIdempotent | db/snowflake/connector/pyconn.py:223 | upper-casing twice equals upper-casing once (`current_schema` re-upper-cases stored names) |
| SnowflakeSql.Resolve | db/snowflake/connector/pyconn.py:115-119 | a truthy argument wins; otherwise a truthy context value is used; otherwise the ValueError. The result is never empty |
| SnowflakeSql.ResolveTarget | db/snowflake/connector/pyconn.py:302-312 | succeeds iff both database and schema resolve. The database is checked first, so MissingDatabase is reported before MissingSchema |
| SnowflakeSql.AllowedTypeKeyword | db/snowflake/connector/pyconn.py:240-245 | every allowed type is a plural; `[:-1]` yields one of DATABASE, WAREHOUSE, ROLE, SCHEMA |
| SnowflakeSql.SourceTypesAllowed | config/config.py:21 | every type name the client passes to `_show_resources` and `_use_resource` is on the allow-list, whatever its case |
| SnowflakeSql.UseStatements | db/snowflake/connector/pyconn.py:244-245 | the four USE statements, spelled out with the upper-cased name |
| SnowflakeSql.QualifiedSchemaRoundTrip | db/snowflake/connector/pyconn.py:222-225 | `"DB".SCHEMA` splits back into the upper-cased database and schema when the database has no quote |
| SnowflakeSql.UseSchemaStatement | db/snowflake/connector/pyconn.py:193-194 | `use_schema` sends `USE SCHEMA "DB".SCHEMA;`: the second upper-casing changes nothing |
| SnowflakeSql.Column | db/snowflake/connector/pyconn.py:237-238 | the projection succeeds iff every row has the column (Python indexing, negatives from the end); otherwise it raises IndexError. Values match row by row |
| SnowflakeSql.CheckResponse | db/snowflake/connector/pyconn.py:402-408 | true iff the response contains `succe`, otherwise BadRequest with the given message; it never returns false |
| SnowflakeSql.WarehouseDefaults | db/snowflake/connector/pyconn.py:64-87 | with defaults, the statement asks for XSMALL, STANDARD, AUTO_SUSPEND = 300, AUTO_RESUME = TRUE and one cluster |
| SnowflakeSql.TableSqlShape | db/snowflake/connector/pyconn.py:314-323 | `CREATE OR REPLACE TABLE` iff replacing with a truthy comment, otherwise `CREATE TABLE IF NOT EXISTS`; the upper-cased target is in the statement. Neither opening is a prefix of a statement that starts with the other |
| SnowflakeSql.CommentPlacement | db/snowflake/connector/pyconn.py:96-100 | stage and database statements end with `COMMENT = '<c>';` iff the comment is truthy, else with just `;` |
| SnowflakeConnector.ListingFinds | db/snowflake/connector/pyconn.py:230-238 | a name shown in the listed column of any answered row is found by the listing |
| SnowflakeConnector.ListingAsWrittenLosesRows | db/snowflake/connector/pyconn.py:261-264 | where the intended listing finds a name, the written one raises NameError |
| SnowflakeConnector.WarehouseExistsAsWrittenRaises | db/snowflake/connector/pyconn.py:156-157 | for a listed warehouse, the intended check answers true where the written one raises |
| SnowflakeConnector.Cursor.FetchOne | db/snowflake/connector/pyconn.py:249-253 | logs the executed statement and returns the first field of the first answered row |
| SnowflakeConnector.Cursor.FetchAll | db/snowflake/connector/pyconn.py:261-265 | logs the executed statement and returns all answered rows |
| SnowflakeConnector.SnowflakeClient.constructor | db/snowflake/connector/pyconn.py:9-20 | credentials and all four context slots start as None |
| SnowflakeConnector.SnowflakeClient.OpenConnection | db/snowflake/connector/pyconn.py:22-37 | see below |
| SnowflakeConnector.SnowflakeClient.CurrentRole | db/snowflake/connector/pyconn.py:201-204 | defined iff the role is truthy, and then equal to it. Under the client invariant `Valid`, which every operation keeps, the reported name is upper-case. UseRole states what it reports afterwards |
| SnowflakeConnector.SnowflakeClient.CurrentWarehouse | db/snowflake/connector/pyconn.py:206-209 | defined iff the warehouse is truthy, and then equal to it. Under the client invariant `Valid`, which every operation keeps, the reported name is upper-case. UseWarehouse and OpenConnection state what it reports afterwards |
| SnowflakeConnector.SnowflakeClient.CurrentDatabase | db/snowflake/connector/pyconn.py:211-214 | defined iff the database is truthy, and then equal to it. Under the client invariant `Valid`, which every operation keeps, the reported name is upper-case. UseDatabase states what it reports afterwards |
| SnowflakeConnector.SnowflakeClient.CurrentSchemaName | db/snowflake/connector/pyconn.py:216-219 | defined iff the schema is truthy, and then equal to it. Under the client invariant `Valid`, which every operation keeps, the reported name is upper-case. UseSchema states the schema slot it leaves, and what `CurrentSchema` reports afterwards |
| SnowflakeConnector.SnowflakeClient.CurrentSchema | db/snowflake/connector/pyconn.py:221-225 | see below |
| SnowflakeConnector.SnowflakeClient.ShowResources | db/snowflake/connector/pyconn.py:230-238 | a type outside the allow-list raises with no statement sent; otherwise exactly one SHOW is sent and the chosen column of its rows is returned |
| SnowflakeConnector.SnowflakeClient.ShowRoles | db/snowflake/connector/pyconn.py:138-139 | sends `SHOW ROLES;` and returns column 1 |
| SnowflakeConnector.SnowflakeClient.ShowWarehouses | db/snowflake/connector/pyconn.py:141-142 | sends `SHOW WAREHOUSES;` and returns column 0 |
| SnowflakeConnector.SnowflakeClient.ShowDatabases | db/snowflake/connector/pyconn.py:144-145 | sends `SHOW DATABASES;` and returns column 1 |
| SnowflakeConnector.SnowflakeClient.ShowSchemas | db/snowflake/connector/pyconn.py:147-151 | sends `SHOW SCHEMAS`, scoped to a truthy database, and returns column 1 |
| SnowflakeConnector.SnowflakeClient.RoleExists | db/snowflake/connector/pyconn.py:153-154 | membership of the upper-cased name in the role listing |
| SnowflakeConnector.SnowflakeClient.WarehouseExists | db/snowflake/connector/pyconn.py:156-157 | membership in the warehouse listing (as intended; see Findings) |
| SnowflakeConnector.SnowflakeClient.DatabaseExists | db/snowflake/connector/pyconn.py:159-160 | membership of the upper-cased name in the database listing |
| SnowflakeConnector.SnowflakeClient.SchemaExists | db/snowflake/connector/pyconn.py:162-166 | see below |
| SnowflakeConnector.SnowflakeClient.UseResource | db/snowflake/connector/pyconn.py:240-247 | a type outside the allow-list raises with nothing sent; otherwise one USE is sent and the result is whether the response holds `succe` |
| SnowflakeConnector.SnowflakeClient.UseRole | db/snowflake/connector/pyconn.py:168-172 | see below |
| SnowflakeConnector.SnowflakeClient.UseWarehouse | db/snowflake/connector/pyconn.py:174-178 | as UseRole, for the warehouse slot |
| SnowflakeConnector.SnowflakeClient.UseDatabase | db/snowflake/connector/pyconn.py:180-184 | as UseRole, for the database slot; the schema is kept |
| SnowflakeConnector.SnowflakeClient.UseSchema | db/snowflake/connector/pyconn.py:186-199 | see below |
| SnowflakeConnector.SnowflakeClient.CreateWarehouse | db/snowflake/connector/pyconn.py:64-94 | sends exactly the warehouse statement; passes iff the response holds `succe`, else BadRequest |
| SnowflakeConnector.SnowflakeClient.CreateDatabase | db/snowflake/connector/pyconn.py:96-106 | sends exactly the database statement; passes iff the response holds `succe` |
| SnowflakeConnector.SnowflakeClient.CreateSchema | db/snowflake/connector/pyconn.py:108-136 | without a resolvable database, raises MissingDatabase with nothing sent; otherwise sends the schema statement and checks the response |
| SnowflakeConnector.SnowflakeClient.CreateTable | db/snowflake/connector/pyconn.py:298-329 | without a resolvable database or schema, raises with nothing sent; otherwise sends the table statement and checks the response |
| SnowflakeConnector.SnowflakeClient.CreateCsvFileFormat | db/snowflake/connector/pyconn.py:331-362 | as CreateTable, with the CSV file-format statement on the quoted, upper-cased name |
| SnowflakeConnector.SnowflakeClient.CreateJsonFileFormat | db/snowflake/connector/pyconn.py:364-400 | as CreateTable, with the JSON file-format statement |
| SnowflakeConnector.SnowflakeClient.CreateStage | db/snowflake/connector/pyconn.py:410-438 | as CreateTable; on an acknowledged response, returns the qualified stage name |
| ResourceGroup.RequestParams | azureclient/rg.py:44-46 | the parameters always hold the location, hold the tags iff the tags are non-empty, and hold nothing else |
| ResourceGroup.AzResourceGroup.constructor | azureclient/rg.py:28-34 | the client keeps its subscription, group name and wait budget |
| ResourceGroup.AzResourceGroup.CreateOrUpdate | azureclient/rg.py:39-54 | see below |
| ResourceGroup.AzResourceGroup.Delete | azureclient/rg.py:56-76 | see below |

Notes on the rows marked "see below":

- **OpenConnection:**
  - It stores the credentials and the upper-cased warehouse.
  - Without a truthy warehouse, the database and schema are cleared.
  - With a warehouse, a None database or schema raises (AttributeError on `.upper()`). The slots written before the raise keep their new values.
  - `CurrentWarehouse()` afterwards reports the upper-cased warehouse iff one was given.
  - The invariant `Valid` (every context slot empty or upper-cased) is kept on every path.
- **CurrentSchema:**
  - It is defined iff the database and the schema are both truthy.
  - Its value is then `"DB".SCHEMA` built from the upper-cased slots, for every pair of names.
  - Under the invariant `Valid`, the stored names appear as they are.
  - When the database name holds no quote, the value splits back into the upper-cased pair.
- **SchemaExists:**
  - It is false or an error without listing schemas when the database is not listed.
  - Otherwise the result is membership in the database-scoped schema listing.
  - The statement trace is stated exactly.
- **UseRole:**
  - A listing error propagates.
  - The role becomes the upper-cased name iff it is listed and the USE response holds `succe`.
  - USE is sent only for a listed name.
  - `CurrentRole()` afterwards reports the upper-cased name when the switch happened and the name is non-empty. Otherwise it reports what it did before.
  - No other field changes, and the invariant `Valid` is kept.
  - UseWarehouse and UseDatabase state the same for `CurrentWarehouse()` and `CurrentDatabase()`.
- **UseSchema:**
  - With no truthy db argument and no current database, it raises MissingDatabase with nothing sent.
  - Otherwise the database and the schema are both set, upper-cased, iff the schema exists and the USE is acknowledged.
  - The sent statements are stated exactly.
  - After a switch to a non-empty schema, `CurrentSchema()` reports `"DB".SCHEMA` for the names used. Otherwise it reports what it did before.
  - The invariant `Valid` is kept.
- **CreateOrUpdate:**
  - It reports Updated iff the group existed before.
  - It sends `RequestParams`.
  - A reply is returned as is.
  - A falsy reply raises ResourceNotFound iff the group now exists, and returns None otherwise.
- **Delete:**
  - A missing group means no delete is issued, no wait and no error.
  - Otherwise the counter goes 1, 2, … and never exceeds `WAIT_ATTEMPTS`.
  - Every wait happens while the operation is not done.
  - Polling stops at the first done answer or when the budget is spent.
  - It raises the timeout iff the operation is still not done.

## Left out

- The connection and cursor lifecycle (`_create_conn`, the `cursor` property, `close_connection`, `test_connection`) is not modelled, because it needs the real driver. `open_connection`'s call to `_create_conn` is left out for the same reason.
- Driver errors that `_query_fetchone`/`_query_fetchall` re-raise are not modelled: the oracle always answers.
- `execute_query` and `upload_csv` are not modelled: their bodies are `pass`.
- The printed progress and status messages are not modelled. `Delete` returns the reported attempt counts instead.
- `str.upper()` is modelled on ASCII letters only. Python also upper-cases other Unicode letters, and some of them change length.
- `OPERATION_TIMEOUT` and real waiting are not modelled. `done()` is modelled as a function of the number of waits performed, so the model cannot express an answer that flips between the loop test and the check after the loop without a wait in between.
- `location` and `tags` of `AZResourceGroup` (azureclient/rg.py:78-86) are not modelled. They call `get()` without a group name, so nothing can be said about what they return.
- `AZResourceGroup.exists` is an input to `CreateOrUpdate` and `Delete`, not a member: it only forwards the service's answer.
- The loading of `SnowflakeConfig` and `AzureConfig` from files and the environment is not modelled. Defaults such as `RG_LOCATION` and `TAGS` become parameters.
- `SnowflakeConnector.SnowflakeClient.WarehouseExists`, `ShowResources` and everything built on them model the evidently intended behaviour, not the raising code (see Findings).

## Findings

| source | as written | input that shows it | evidently intended | confidence | as-written member | corrected member |
|---|---|---|---|---|---|---|
| db/snowflake/connector/pyconn.py:264 | `_query_fetchall` reads rows through the global `sfc`, which only the script block at line 446 binds. When the module is imported as a library, `sfc` is unbound and every call raises NameError after executing its statement. Run as a script, it reads the script's one client's cursor | `role_exists("analyst")` when `SHOW ROLES;` answers a row whose second column is `ANALYST` | fetch all rows from `self.cursor` | high; not executed | SnowflakeConnector.ListingAsWrittenLosesRows | SnowflakeConnector.SnowflakeClient.ShowResources |
| db/snowflake/connector/pyconn.py:157 | `wh_name.upper() in self.show_warehouses` tests membership in the method object itself, which raises TypeError | `warehouse_exists("compute_wh")` when `COMPUTE_WH` is listed | call `self.show_warehouses()` | high; not executed | SnowflakeConnector.WarehouseExistsAsWrittenRaises | SnowflakeConnector.SnowflakeClient.WarehouseExists |
