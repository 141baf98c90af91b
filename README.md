# PolarDB MCP servers: routing, argument handling and response rendering

This project models, in Dafny, the deterministic core of two Model Context
Protocol servers for Alibaba Cloud PolarDB:

- **The cloud (OpenAPI) server** exposes three resources under the
  `polardb-mysql://` scheme: the region list, the clusters of one region, and
  the clusters of every region. It also exposes ten tools. The model covers:
  - the URI resolver of `read_resource`;
  - the text rendering of the region and cluster listings (`get_polardb_regions`,
    `get_polardb_clusters`);
  - the aggregator `get_all_polardb_clusters`, which reads region ids back out
    of the region listing and keeps every region whose listing is non-empty
    and lacks "No PolarDB clusters found", including regions whose call
    failed;
  - the `call_tool` dispatch table and each handler's required-argument checks;
  - the cluster blocks of `polardb_describe_db_clusters`, with `N/A` for absent
    fields;
  - the request fields and defaults of `polardb_create_cluster`;
  - the not-found message of `polardb_describe_available_resources`.
- **The MySQL server** exposes one data and one schema resource per table, and
  a single `execute_sql` tool. The model covers:
  - `get_db_config` (environment defaults and required settings);
  - `list_resources` (two URIs per table) and the parser in `read_resource`
    that reads those URIs back;
  - the comma-joined rendering of result sets;
  - `get_sql_operation_type`;
  - `call_tool`, with a `Database` object that records the statements sent
    and the commits issued.

Backends are inputs. A cloud call is a `Fetch` value:
- `NoClient`: the client could not be created;
- `Raised(message)`: the call raised;
- `Fetched(body)`: the call returned a response body.

The per-region cluster answers of a whole aggregation are a function from
region id to `Fetch`. A MySQL statement's outcome is one of:
- `Rows(result set)`;
- `RowsAffected(n)`;
- `DriverFailed(message)`.

Table contents and column descriptions are functions from table name to a
result. Tool arguments are a map from names to `Value`. A `Value` is `None`, a
bool, an int or a string, read with Python's truthiness and `dict.get`
semantics.

Files:
- `text.dfy`: the Python string operations the code relies on
  (`split`, `join`, `strip`, `startswith`, `in`, `isdigit`, `int`, `str`,
  `upper`), with lemmas such as split/join inverses.
- `wrappers.dfy`: `Option` and `Result`.
- `args.dfy`: argument values and dictionary access.
- `cloud_resources.dfy`: the cloud server's resources.
- `cloud_tools.dfy`: the cloud server's tools.
- `mysql_server.dfy`: the MySQL server.

Two behaviours of the code deserve a note, because a reader might expect
otherwise:
- **No permission gate.** Nothing checks statements or operations against
  a policy. The four `enable_*` flags
  (`polardb-openapi-mcp-server/server.py:24-27`) are declared and never read.
  The MySQL `call_tool` computes the operation type only to log it
  (`polardb-mysql-mcp-server/server.py:146-147`).
  `MySqlServer.NoStatementGate` states that any two non-empty queries are
  handled alike.
- **Some errors are raised, not returned as text.** `read_resource` of both
  servers raises on a bad URI. The MySQL `call_tool` raises on an unknown
  tool or an empty query. These are modelled as `Failure` results. Database
  errors inside `execute_sql` come back as text, as the code does.

The model also reproduces these behaviours of the code:
- The aggregator takes the text before the first `:` of every non-empty line
  that holds a colon as a region id. The error text "Error retrieving regions: ..." therefore yields
  the region id "Error retrieving regions" (`CloudResources.RegionsErrorReadAsRegion`).
- A region drops out of the aggregate when one of its clusters has
  "No PolarDB clusters found" in its description
  (`CloudResources.DescriptionHidesRegion`).
- A region whose client cannot be created, or whose `DescribeDBClusters` call
  raises, stays in the aggregate under its header, with the error text as its
  listing (`CloudResources.FailedRegionKept`).
- CSV values are not escaped (`MySqlServer.CsvAmbiguous`).
- Segments of a MySQL resource URI after the resource type are ignored
  (`MySqlServer.ParseUriExtra`).

## Model

| member | source | states |
|---|---|---|
| CloudResources.Resolve | polardb-openapi-mcp-server/server.py:104-131 | A URI is rejected as an invalid scheme exactly when it does not start with `polardb-mysql://`; every rejection carries the URI |
| CloudResources.ResolveRegionList | polardb-openapi-mcp-server/server.py:110-114 | The region listing is selected exactly by the URI `polardb-mysql://regions` |
| CloudResources.ResolveAllClusters | polardb-openapi-mcp-server/server.py:116-118 | The all-regions listing is selected exactly by `polardb-mysql://clusters` |
| CloudResources.ResolveRegionClusters | polardb-openapi-mcp-server/server.py:120-123 | Region `r` is selected exactly by `polardb-mysql://r/clusters`, for any `r` without a slash |
| CloudResources.ReadResource | polardb-openapi-mcp-server/server.py:102-131 | A rejected URI reaches no backend; each accepted shape returns its listing for the given backend answers |
| CloudResources.GetRegions | polardb-openapi-mcp-server/server.py:134-160 | The loop builds one `id: name` line per region, joined by newlines, with the no-client, error and empty-body texts otherwise |
| CloudResources.RegionIdOf | polardb-openapi-mcp-server/server.py:208 | An extracted id holds no colon and has no surrounding whitespace |
| CloudResources.RegionIdsOf | polardb-openapi-mcp-server/server.py:206-209 | There are never more ids than lines |
| CloudResources.RegionIdsOfLine | polardb-openapi-mcp-server/server.py:207-209 | A line gives an id exactly when it is non-empty and holds a colon |
| CloudResources.RegionIdsOfConcat | polardb-openapi-mcp-server/server.py:206-209 | Extraction distributes over concatenation of lines, so ids keep line order |
| CloudResources.CollectRegionIds | polardb-openapi-mcp-server/server.py:203-209 | The loop yields the stripped text before the first colon of each non-empty line holding a colon, in order |
| CloudResources.ColonLine | polardb-openapi-mcp-server/server.py:208 | A line `id: rest` names region `id` whenever `id` has no colon and no padding |
| CloudResources.RegionLineId | polardb-openapi-mcp-server/server.py:152 | A rendered region line gives back its region's id |
| CloudResources.RegionLinesIds | polardb-openapi-mcp-server/server.py:150-152 | The rendered region lines give back the region ids, in order |
| CloudResources.RegionsRoundTrip | polardb-openapi-mcp-server/server.py:150-154 | Extracting ids from a region listing returns exactly the listed ids, in order |
| CloudResources.RegionsErrorReadAsRegion | polardb-openapi-mcp-server/server.py:158-160 | For a failed regions call, the first id extracted is "Error retrieving regions" |
| CloudResources.GetClusters | polardb-openapi-mcp-server/server.py:162-198 | A region's listing is one block per cluster, or the no-client, error or "No PolarDB clusters found in region" text |
| CloudResources.RenderListing | polardb-openapi-mcp-server/server.py:180-192 | The loop joins each block's lines and then joins the blocks by newlines |
| CloudResources.ListingLines | polardb-openapi-mcp-server/server.py:192 | When no value holds a line break, the listing's lines are its blocks' lines, one after another |
| CloudResources.ClusterBlockSingleLine | polardb-openapi-mcp-server/server.py:182-189 | A cluster block is six single lines when its six values are single lines |
| CloudResources.ListingBlocks | polardb-openapi-mcp-server/server.py:180-192 | A listing of six-line blocks splits into exactly six lines per block |
| CloudResources.ClusterListingLines | polardb-openapi-mcp-server/server.py:181-192 | A region's listing is exactly six lines per cluster (id, description, status, engine and version, created, separator), in API order |
| CloudResources.AggregateOne | polardb-openapi-mcp-server/server.py:216-220 | A region adds its header and listing exactly when the listing is non-empty and lacks "No PolarDB clusters found", and adds nothing otherwise |
| CloudResources.AggregateConcat | polardb-openapi-mcp-server/server.py:215-220 | Aggregation distributes over concatenation of regions: region order is kept |
| CloudResources.AggregateEmpty | polardb-openapi-mcp-server/server.py:215-223 | Nothing is aggregated exactly when no region contributes |
| CloudResources.AggregateOutcome | polardb-openapi-mcp-server/server.py:211-225 | No ids gives "No regions found"; no contributing region gives "No PolarDB clusters found across all regions"; otherwise the headed listings joined by newlines |
| CloudResources.AggregateRegions | polardb-openapi-mcp-server/server.py:215-220 | The per-region loop builds exactly the aggregate list |
| CloudResources.GetAllClusters | polardb-openapi-mcp-server/server.py:200-225 | The aggregator's text for the given regions and per-region answers |
| CloudResources.DescriptionHidesRegion | polardb-openapi-mcp-server/server.py:184 | A cluster whose description holds "No PolarDB clusters found" makes its region's listing non-contributing |
| CloudResources.JoinWithin | polardb-openapi-mcp-server/server.py:225 | Every entry appears inside its newline-joined text, as each region's listing does inside the aggregate |
| CloudResources.FailedRegionKept | polardb-openapi-mcp-server/server.py:216-219 | A region whose client cannot be created, or whose call raises with a message lacking "No PolarDB clusters found", is kept with its header and the error text |
| CloudResources.NoClientLacksN | polardb-openapi-mcp-server/server.py:166 | The client-failure text holds no capital N, so it cannot contain "No PolarDB clusters found" |
| CloudResources.RaisedPrefixLacksN | polardb-openapi-mcp-server/server.py:198 | The cluster-error prefix holds no capital N, so the phrase can only come from the exception's message |
| CloudTools.ToolName | polardb-openapi-mcp-server/server.py:1446-1465 | Every tool is registered under a `polardb_` name; that no two share a name is `LookupToolName` |
| CloudTools.LookupTool | polardb-openapi-mcp-server/server.py:1446-1467 | A name selects a tool only if the tool is registered under that name; it selects none exactly when no tool has that name |
| CloudTools.LookupToolName | polardb-openapi-mcp-server/server.py:1446-1465 | Each of the ten registered names selects its own tool |
| CloudTools.CallTool | polardb-openapi-mcp-server/server.py:1443-1467 | Unknown names, and only they, fail with "Unknown tool: name"; a handler that reaches the client is the tool registered under the name |
| CloudTools.DispatchRoutes | polardb-openapi-mcp-server/server.py:1446-1465 | Calling a registered name runs that tool's own argument checks |
| CloudTools.FirstMissing | polardb-openapi-mcp-server/server.py:1005-1012 | No message exactly when every required argument is supplied; otherwise the message of the first missing one |
| CloudTools.FirstMissingIs | polardb-openapi-mcp-server/server.py:1005-1012 | The first missing argument's message is the one returned |
| CloudTools.Required | polardb-openapi-mcp-server/server.py:1005-1012 | Each handler's required arguments, in checking order, with their messages (also lines 545-547, 622-624, 844-848, 888-893, 1136-1143 and 1298-1305); only the regions, available-resources and create-cluster handlers require none, and no handler checks a key twice |
| CloudTools.Prologue | polardb-openapi-mcp-server/server.py:1005-1016 | A handler either replies with the message of its first missing required argument, or goes on to create its own client |
| CloudTools.PrologueOutcome | polardb-openapi-mcp-server/server.py:888-893 | A handler goes on to create a client exactly when all its required arguments are supplied; otherwise it replies with the first missing argument's message |
| CloudTools.SlowLogOrder | polardb-openapi-mcp-server/server.py:1005-1016 | The slow-log handler checks region, cluster, start time and end time, in that order, before creating a client |
| CloudTools.Field | polardb-openapi-mcp-server/server.py:580-584 | An absent key renders as `N/A`; a present one as its value |
| CloudTools.RecordBlocks | polardb-openapi-mcp-server/server.py:578-586 | One block per record, in order |
| CloudTools.DbClustersPrologue | polardb-openapi-mcp-server/server.py:545-547 | `polardb_describe_db_clusters` goes on exactly when `region_id` is supplied |
| CloudTools.DescribeDbClustersText | polardb-openapi-mcp-server/server.py:543-618 | Without a region the reply is "Region ID is required"; a non-empty page is the joined blocks of its records; an empty page starts with "No PolarDB clusters found in region" and the region |
| CloudTools.DescribeDbClustersTool | polardb-openapi-mcp-server/server.py:543-618 | The handler's text for the given arguments and response |
| CloudTools.RecordNotAvailable | polardb-openapi-mcp-server/server.py:579-586 | Every block has six lines, absent fields read `N/A`, and the last line is the separator |
| CloudTools.RecordSingleLine | polardb-openapi-mcp-server/server.py:579-586 | A record with single-line values renders as six single lines |
| CloudTools.DbClustersListingLines | polardb-openapi-mcp-server/server.py:577-607 | A listing is exactly six lines per record, each six that record's block |
| CloudTools.EmptyListingNamesRegion | polardb-openapi-mcp-server/server.py:606-614 | An empty listing starts with "No PolarDB clusters found in region" and the region |
| CloudTools.DbClustersNeedRegion | polardb-openapi-mcp-server/server.py:545-547 | Without a region the reply is "Region ID is required" whatever the backend would answer |
| CloudTools.NotFoundMessage | polardb-openapi-mcp-server/server.py:826-832 | The message always starts with "No PolarDB available resources found", and is exactly that sentence when no filter is supplied |
| CloudTools.Clause | polardb-openapi-mcp-server/server.py:827-832 | A clause is empty exactly when its argument is not supplied |
| CloudTools.NotFoundBare | polardb-openapi-mcp-server/server.py:826-833 | With no filter supplied, the message is "No PolarDB available resources found" |
| CloudTools.NotFoundAll | polardb-openapi-mcp-server/server.py:826-832 | With all three filters, the message names region, zone and DB type, in that order |
| CloudTools.NotFoundMentions | polardb-openapi-mcp-server/server.py:827-832 | Every supplied filter is named in the message |
| CloudTools.NotFoundIgnores | polardb-openapi-mcp-server/server.py:826-832 | No other argument, such as `db_version` or `pay_type`, changes the message |
| CloudTools.StorageSpace | polardb-openapi-mcp-server/server.py:948-952 | A string of ASCII digits becomes its decimal value, leading zeros included (`"050"` gives 50); any other value is passed on unchanged |
| CloudTools.StorageSpaceDigits | polardb-openapi-mcp-server/server.py:950-951 | The decimal text of `n` is converted to `n` |
| CloudTools.CreateDBClusterRequest.constructor | polardb-openapi-mcp-server/server.py:938 | A new request has no field set |
| CloudTools.CreateDBClusterRequest.ApplyArguments | polardb-openapi-mcp-server/server.py:940-972 | The six defaulted fields take the argument if its key is present and the default otherwise; each optional field is set from its argument exactly when its key is present; nothing else changes |
| CloudTools.CreateDBClusterRequest.ApplyDefaults | polardb-openapi-mcp-server/server.py:941-952 | The defaults are `cn-hangzhou`, `MySQL`, `8.0`, `polar.mysql.g2.medium`, `Postpaid` and 50 |
| CloudTools.CreateDBClusterRequest.ApplyOptional | polardb-openapi-mcp-server/server.py:955-972 | Each of the nine optional fields is copied exactly when its key is present |
| CloudTools.CreateDBClusterRequest.SetIfPresent | polardb-openapi-mcp-server/server.py:957-958 | One conditional copy of an argument into its field |
| CloudTools.SetStep | polardb-openapi-mcp-server/server.py:955-972 | Each conditional copy extends the set of applied optional fields |
| CloudTools.ThreeSteps | polardb-openapi-mcp-server/server.py:955-972 | Three conditional copies in a row extend the applied fields by those three |
| CloudTools.NineSteps | polardb-openapi-mcp-server/server.py:955-972 | The nine copies in source order leave exactly the present optional keys copied and every other field unchanged |
| CloudTools.OptionalFields | polardb-openapi-mcp-server/server.py:955-972 | After the nine copies, exactly the optional fields with present keys are set |
| CloudTools.BuildCreateRequest | polardb-openapi-mcp-server/server.py:936-972 | The field set is the six defaulted fields plus the optional fields whose keys are present. Each defaulted field holds its argument when the key is present and its default otherwise, with storage converted. Each present optional field holds its argument. With no arguments the request is exactly the six defaults |
| MySqlServer.ParseDecimal | polardb-mysql-mcp-server/server.py:25 | Unpadded text is read exactly when it is ASCII digits with at most one leading sign; its value is the digits' value, negated after `-` |
| MySqlServer.ParseInt | polardb-mysql-mcp-server/server.py:25 | The text is read exactly when, once stripped, it is ASCII digits with at most one leading sign, so `int()` raises on anything else; the value is that of the stripped digits, negated after `-`, and a bare digit string is read as its decimal value |
| MySqlServer.IntToStringParse | polardb-mysql-mcp-server/server.py:25 | `str(n)` of any integer, negative ones included, is one line and reads back as `n` |
| MySqlServer.ParseIntDigits | polardb-mysql-mcp-server/server.py:25 | The decimal text of `n` is read as `n` |
| MySqlServer.GetDbConfig | polardb-mysql-mcp-server/server.py:21-36 | An unreadable port fails first. A readable port with an absent or empty user, password or database gives the missing-configuration error. Otherwise the configuration succeeds, with the host variable or `localhost`, the parsed port and the three settings |
| MySqlServer.ConfigDefaults | polardb-mysql-mcp-server/server.py:24-25 | Without host and port variables, the host is `localhost` and the port 3306 |
| MySqlServer.ConfigPort | polardb-mysql-mcp-server/server.py:25 | A decimal port variable gives that port |
| MySqlServer.ConfigEmptySetting | polardb-mysql-mcp-server/server.py:26-34 | An absent or empty user, password or database counts as missing configuration when the port is decimal or unset |
| MySqlServer.LettersNotInt | polardb-mysql-mcp-server/server.py:25 | The text `abc` is not read as an integer |
| MySqlServer.ConfigBadPort | polardb-mysql-mcp-server/server.py:25 | Port text `abc` is refused as an invalid port, whatever else is set |
| MySqlServer.ListResources | polardb-mysql-mcp-server/server.py:41-73 | A configuration error propagates; a driver error gives no resources; otherwise exactly two resources per table, data then schema, in table order |
| MySqlServer.TableResources | polardb-mysql-mcp-server/server.py:52-68 | The loop emits entry `2i` as table `i`'s data resource and entry `2i+1` as its schema resource |
| MySqlServer.ParseUri | polardb-mysql-mcp-server/server.py:81-86 | Invalid scheme exactly without the `polardb-mysql://db/` prefix; a missing resource type exactly when no slash follows the prefix; table and type never hold a slash |
| MySqlServer.ParseUriTable | polardb-mysql-mcp-server/server.py:84-86 | The table is the first segment after the prefix; the type is the next segment |
| MySqlServer.SplitSeg | polardb-mysql-mcp-server/server.py:84 | Splitting `p/s`, for `p` without a slash, gives `p` and then the pieces of `s` |
| MySqlServer.ParseUriExtra | polardb-mysql-mcp-server/server.py:84-86 | Segments after the resource type are ignored |
| MySqlServer.ListedUriRoundTrip | polardb-mysql-mcp-server/server.py:56-86 | Every listed URI of a table without a slash parses back to that table with type `data` or `schema` |
| MySqlServer.RowLines | polardb-mysql-mcp-server/server.py:94 | One comma-joined line per row, in row order |
| MySqlServer.ReadResource | polardb-mysql-mcp-server/server.py:76-104 | A configuration error, or a URI without the prefix or without a resource type, is reported before any query; a failing data or schema query gives that driver message as a database error; any other resource type gives no content; content comes only from a data or schema URI |
| MySqlServer.CsvLineSingle | polardb-mysql-mcp-server/server.py:94 | A row of single-line values renders as one line |
| MySqlServer.ResultSetLines | polardb-mysql-mcp-server/server.py:94-95 | A result set reads back as the header line and then one line per row |
| MySqlServer.DataResourceLines | polardb-mysql-mcp-server/server.py:91-95 | A data resource is the header line and then exactly the first min(N, 50) of the table's N rows, in order |
| MySqlServer.SchemaResourceLines | polardb-mysql-mcp-server/server.py:98-100 | A schema resource is one line per row, with no header |
| MySqlServer.CsvAmbiguous | polardb-mysql-mcp-server/server.py:94 | A value holding a comma renders like two values |
| MySqlServer.ReadListedData | polardb-mysql-mcp-server/server.py:84-95 | Reading a listed data URI renders the first 50 rows of that very table |
| MySqlServer.ReadListedSchema | polardb-mysql-mcp-server/server.py:84-100 | Reading a listed schema URI renders that very table's column descriptions |
| MySqlServer.OperationType | polardb-mysql-mcp-server/server.py:128-133 | No statement gives `UNKNOWN`; otherwise the first statement's type, upper-cased: each ASCII lowercase letter becomes its uppercase letter and every other character is kept |
| MySqlServer.OperationTypeFirst | polardb-mysql-mcp-server/server.py:132-133 | Later statements never change the type |
| MySqlServer.Admitted | polardb-mysql-mcp-server/server.py:137-145 | A statement is sent exactly when the configuration is valid, the name is `execute_sql` and `query` is a non-empty string, and it is that string |
| MySqlServer.ExecuteText | polardb-mysql-mcp-server/server.py:152-162 | A result set is rendered like a data resource; a row count is "Query executed successfully. Rows affected: " followed by `str` of the driver's count; a driver error is "Error executing query: " followed by the driver's message |
| MySqlServer.RowsAffectedReadsBack | polardb-mysql-mcp-server/server.py:159 | The row-count reply is one line, and the text after its prefix reads back as the driver's count |
| MySqlServer.RepliesDiffer | polardb-mysql-mcp-server/server.py:159-162 | A row-count reply never equals an error reply |
| MySqlServer.ExecuteTextDetermines | polardb-mysql-mcp-server/server.py:157-162 | Two row-count or error replies are equal only for the same outcome: the reply determines the count or the driver message |
| MySqlServer.CallToolResult | polardb-mysql-mcp-server/server.py:137-162 | A call fails exactly when the statement is not admitted, with the admission error; otherwise the reply is the statement's outcome text |
| MySqlServer.Database.constructor | polardb-mysql-mcp-server/server.py:149 | A fresh database has received no statement and no commit |
| MySqlServer.Database.Execute | polardb-mysql-mcp-server/server.py:151 | The statement is appended to those received |
| MySqlServer.Database.Commit | polardb-mysql-mcp-server/server.py:158 | One more commit |
| MySqlServer.CallTool | polardb-mysql-mcp-server/server.py:134-162 | Nothing reaches the database unless the checks pass; then the query is sent once, committed only when there is no result set, and driver errors come back as text |
| MySqlServer.ConfigBeforeName | polardb-mysql-mcp-server/server.py:137-141 | A configuration error wins over an unknown tool name |
| MySqlServer.UnknownToolRefused | polardb-mysql-mcp-server/server.py:140-141 | Any name other than `execute_sql` is refused |
| MySqlServer.EmptyQueryRefused | polardb-mysql-mcp-server/server.py:143-145 | A missing, `None` or empty query is refused with "Query is required" |
| MySqlServer.NoStatementGate | polardb-mysql-mcp-server/server.py:143-159 | Any two non-empty queries get the same treatment: there is no permission check on the statement |
| MySqlServer.AdmittedQuery | polardb-mysql-mcp-server/server.py:143-145 | A non-empty string query to `execute_sql` is admitted as is |
| MySqlServer.ExecuteRowsLikeData | polardb-mysql-mcp-server/server.py:152-156 | A result set from `execute_sql` is a header line and then one line per row, as a data resource is |

## Left out

- Transport and start-up (Starlette, SSE, uvicorn, stdio, `main`) and logging: I/O plumbing, with no logic of their own.
- `create_client`: it loads credentials from the environment. Its failure is one `Fetch` case (`NoClient`).
- The Alibaba Cloud SDK calls and the introspection of their responses: backend calls. Bodies are abstract records. This covers `hasattr`/`getattr`, `to_map`, the JSON round trip, and the object-access fallback of `polardb_describe_db_clusters` (`polardb-openapi-mcp-server/server.py:589-604`). It also covers that handler's "Response: ..." text, used when `to_map` fails.
- The MySQL driver: `connect`, the cursor, and a failing connection or commit. Statement outcomes are inputs, and connection failures are not modelled. `Database` records the statements sent and the commits issued.
- `sqlparse`: the parser is not modelled. `OperationType` takes the parsed statement types as input. A non-string query is assumed to make the parser raise (`QueryNotText`).
- Handler bodies after the argument checks: they format SDK objects. This covers `polardb_describe_regions`, `polardb_describe_db_cluster`, the node-parameter handlers, slow-log records, and the two performance handlers. Their prologues are modelled. The rest uses floats, datetimes (`polardb-openapi-mcp-server/server.py:672`, 1233-1258, 1385-1410) and SDK object trees.
- The zone listing of `polardb_describe_available_resources` and that handler's request fields: only its not-found message is modelled.
- The response text of `polardb_create_cluster`, and the API call itself: backend output.
- `list_tools` and `list_resource_templates`: static catalogues.
- MySqlServer.ParseInt: does not accept underscores between digits or non-ASCII digits, which Python's `int()` does. The port is taken as given, with no range check.
- Text.Strip, Text.IsDigits, Text.Upper: ASCII only. Python also strips and upper-cases non-ASCII characters and counts non-ASCII digits.
- Args.Value: float, list and object argument values are not modelled.
- MySqlServer.ResultSet: cell values are already rendered by `str()`. How the driver's types print is not modelled.
- MySqlServer.ReadResource: the SQL built by splicing the table name into the query is not modelled. The table's contents are taken as given for that name.
- MySqlServer.ToolErrorMessage, MySqlServer.ReadErrorMessage, MySqlServer.ConfigErrorMessage: Python exception texts other than the source's own messages are approximations. For example, the rejected port text is quoted but not escaped as Python's `repr` would escape it.
- CloudResources.ClustersText: `get_polardb_clusters` calls `describe_db_clusters_with_options` (`polardb-openapi-mcp-server/server.py:176`), while `polardb_describe_db_clusters` calls `describe_dbclusters_with_options` (561). At most one of these names can exist on the client. If the first does not, every per-region listing is the "Error retrieving clusters: ..." text, which lacks "No PolarDB clusters found", so every region would count as contributing to the aggregate. The model covers that case as the `Raised(m)` answer but does not decide which name is real.
- CloudTools.DescribeDbClustersText: only the dictionary path is modelled (`polardb-openapi-mcp-server/server.py:574-587`). That path is probably reached rarely. `json.loads(str(response.to_map()))` (565-569) parses a Python repr, whose single-quoted strings are not JSON, so it most likely raises, and the bare `except` swallows the error. The fallback at 589 then looks for `Items`, while the SDK objects use snake_case names (181). So the reply is usually the "No PolarDB clusters found in region ... Response: ..." text, which is left out with the object path.
- MySqlServer.ListedUriRoundTrip: it holds on the raw URI strings. The transport passes URIs through pydantic `AnyUrl` (`polardb-mysql-mcp-server/server.py:55-56`, 76-79), which may percent-encode characters such as spaces in a table name. That normalisation is not modelled.
