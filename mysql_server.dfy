/** The MySQL server: connection settings from the environment, one data and
    one schema resource per table, the resource reader with its CSV-like
    rendering, and the `execute_sql` tool. The driver's answers are inputs;
    a `Database` object records the statements it is sent and its commits. */
module MySqlServer {
  import opened Text
  import opened Wrappers
  import opened Args

  // ---------------------------------------------------------------------
  // get_db_config

  const HostVar := "POLARDB_MYSQL_HOST"
  const PortVar := "POLARDB_MYSQL_PORT"
  const UserVar := "POLARDB_MYSQL_USER"
  const PasswordVar := "POLARDB_MYSQL_PASSWORD"
  const DatabaseVar := "POLARDB_MYSQL_DATABASE"

  type Environment = map<string, string>

  datatype Config = Config(host: string, port: int, user: string, password: string, database: string)

  /** `int()` refusing the port text, or a missing user, password or database. */
  datatype ConfigError = InvalidPort(text: string) | MissingConfig

  function ConfigErrorMessage(e: ConfigError): string
  {
    match e
    case InvalidPort(t) => "invalid literal for int() with base 10: '" + t + "'"
    case MissingConfig => "Missing required database configuration"
  }

  /** `os.getenv(k, d)`. */
  function GetEnv(env: Environment, k: string, d: string): string
  {
    if k in env then env[k] else d
  }

  /** A variable `all([...])` accepts: present and not empty. */
  predicate Provided(env: Environment, k: string)
  {
    k in env && env[k] != ""
  }

  /** `int(t)` on a text with no surrounding white space: digits, optionally
      after one sign. */
  function ParseDecimal(t: string): (r: Option<int>)
    ensures r.Some? <==> IsDigits(t) || (|t| > 1 && (t[0] == '+' || t[0] == '-') && IsDigits(t[1..]))
    ensures IsDigits(t) ==> r == Some(DigitsValue(t))
    ensures |t| > 1 && t[0] == '+' && IsDigits(t[1..]) ==> r == Some(DigitsValue(t[1..]))
    ensures |t| > 1 && t[0] == '-' && IsDigits(t[1..]) ==> r == Some(-(DigitsValue(t[1..]) as int))
  {
    assert |t| > 0 && (t[0] == '+' || t[0] == '-') ==> !IsDigits(t) by {
      if |t| > 0 && !IsDigit(t[0]) {
        assert !IsDigits(t);
      }
    }
    if IsDigits(t) then
      Some(DigitsValue(t))
    else if |t| > 1 && (t[0] == '+' || t[0] == '-') && IsDigits(t[1..]) then
      var magnitude: int := DigitsValue(t[1..]);
      Some(if t[0] == '-' then -magnitude else magnitude)
    else
      None
  }

  /** Python's `int(text)` on a decimal literal: optional surrounding
      whitespace and an optional sign before ASCII digits. */
  function ParseInt(text: string): (r: Option<int>)
    ensures IsDigits(text) ==> r == Some(DigitsValue(text))
    ensures r.Some? ==> exists i :: OccursAt(text, Strip(text), i) && |Strip(text)| > 0
    ensures var t := Strip(text);
            r.Some? <==> IsDigits(t) || (|t| > 1 && (t[0] == '+' || t[0] == '-') && IsDigits(t[1..]))
    ensures var t := Strip(text); IsDigits(t) ==> r == Some(DigitsValue(t))
    ensures var t := Strip(text);
            |t| > 1 && t[0] == '+' && IsDigits(t[1..]) ==> r == Some(DigitsValue(t[1..]))
    ensures var t := Strip(text);
            |t| > 1 && t[0] == '-' && IsDigits(t[1..]) ==> r == Some(-(DigitsValue(t[1..]) as int))
  {
    var t := Strip(text);
    assert IsDigits(text) ==> t == text by {
      if IsDigits(text) {
        DigitsUnpadded(text);
      }
    }
    ParseDecimal(t)
  }

  /** The decimal text of a number parses back to it. */
  lemma ParseIntDigits(n: nat)
    ensures ParseInt(NatToString(n)) == Some(n)
  {
    NatToStringValue(n);
  }

  /** Letters are not a decimal integer. */
  lemma LettersNotInt()
    ensures ParseInt("abc") == None
  {
    var t := "abc";
    assert t[0] == 'a' && t[|t| - 1] == 'c';
    assert Unpadded(t);
    StripUnpadded(t);
    assert Strip(t) == t;
    assert !IsDigit(t[0]) && t[0] != '+' && t[0] != '-';
    assert !IsDigits(Strip(t));
  }

  /** `get_db_config`: the port is converted while the dictionary is built,
      so a bad port is reported before any missing setting. */
  function GetDbConfig(env: Environment): (r: Result<Config, ConfigError>)
    ensures r == Failure(InvalidPort(GetEnv(env, PortVar, "3306"))) <==> ParseInt(GetEnv(env, PortVar, "3306")).None?
    ensures r.Success? <==> ParseInt(GetEnv(env, PortVar, "3306")).Some?
                            && Provided(env, UserVar) && Provided(env, PasswordVar) && Provided(env, DatabaseVar)
    ensures r.Success? ==> r.value.user == env[UserVar] && r.value.password == env[PasswordVar]
                           && r.value.database == env[DatabaseVar] && r.value.database != ""
    ensures r.Success? ==> r.value.host == GetEnv(env, HostVar, "localhost")
                           && r.value.port == ParseInt(GetEnv(env, PortVar, "3306")).value
    ensures ParseInt(GetEnv(env, PortVar, "3306")).Some?
            && !(Provided(env, UserVar) && Provided(env, PasswordVar) && Provided(env, DatabaseVar))
            ==> r == Failure(MissingConfig)
  {
    var portText := GetEnv(env, PortVar, "3306");
    match ParseInt(portText)
    case None => Failure(InvalidPort(portText))
    case Some(port) =>
      if Provided(env, UserVar) && Provided(env, PasswordVar) && Provided(env, DatabaseVar) then
        Success(Config(GetEnv(env, HostVar, "localhost"), port, env[UserVar], env[PasswordVar], env[DatabaseVar]))
      else
        Failure(MissingConfig)
  }

  /** Without host and port variables the server connects to localhost:3306. */
  lemma ConfigDefaults(env: Environment)
    requires HostVar !in env && PortVar !in env
    requires Provided(env, UserVar) && Provided(env, PasswordVar) && Provided(env, DatabaseVar)
    ensures GetDbConfig(env) == Success(Config("localhost", 3306, env[UserVar], env[PasswordVar], env[DatabaseVar]))
  {
    assert NatToString(3306) == "3306" by {
      assert NatToString(3) == "3";
      assert NatToString(33) == "33";
      assert NatToString(330) == "330";
    }
    ParseIntDigits(3306);
  }

  /** A port given in decimal is the port that is used. */
  lemma ConfigPort(env: Environment, n: nat)
    requires PortVar in env && env[PortVar] == NatToString(n)
    requires Provided(env, UserVar) && Provided(env, PasswordVar) && Provided(env, DatabaseVar)
    ensures GetDbConfig(env).Success? && GetDbConfig(env).value.port == n
  {
    ParseIntDigits(n);
  }

  /** An absent or empty user, password or database name counts as missing,
      once the port has been read. */
  lemma ConfigEmptySetting(env: Environment, k: string)
    requires k == UserVar || k == PasswordVar || k == DatabaseVar
    requires k !in env || env[k] == ""
    requires PortVar !in env || IsDigits(env[PortVar])
    ensures GetDbConfig(env) == Failure(MissingConfig)
  {
    assert IsDigits(GetEnv(env, PortVar, "3306")) by {
      if PortVar !in env {
        assert GetEnv(env, PortVar, "3306") == "3306";
        assert IsDigit('3') && IsDigit('6');
      }
    }
  }

  /** Port text that is not a decimal literal is refused, whatever else is set. */
  lemma ConfigBadPort(env: Environment)
    requires PortVar in env && env[PortVar] == "abc"
    ensures GetDbConfig(env) == Failure(InvalidPort("abc"))
  {
    assert GetEnv(env, PortVar, "3306") == "abc";
    LettersNotInt();
  }

  // ---------------------------------------------------------------------
  // list_resources

  const Scheme := "polardb-mysql://"

  datatype Resource = Resource(uri: string, name: string, mimeType: string, description: string)

  function TableUri(database: string, table: string, kind: string): string
  {
    Scheme + database + "/" + table + "/" + kind
  }

  function DataResource(database: string, table: string): Resource
  {
    Resource(TableUri(database, table, "data"), "content for table(" + table + ")", "text/plain",
             "data in table (" + table + ")")
  }

  function SchemaResource(database: string, table: string): Resource
  {
    Resource(TableUri(database, table, "schema"), "schema for table(" + table + ")", "text/plain",
             "field information for table (" + table + ")")
  }

  /** `list_resources`: the configuration is read first (its error propagates);
      a driver error from `SHOW TABLES` gives an empty list; otherwise a data
      and then a schema resource for each table, in the order shown. */
  method ListResources(env: Environment, tables: Result<seq<string>, string>)
    returns (r: Result<seq<Resource>, ConfigError>)
    ensures GetDbConfig(env).Failure? ==> r == Failure(GetDbConfig(env).error)
    ensures GetDbConfig(env).Success? && tables.Failure? ==> r == Success([])
    ensures GetDbConfig(env).Success? && tables.Success? ==>
      var db := GetDbConfig(env).value.database;
      r.Success? && |r.value| == 2 * |tables.value|
      && forall i :: 0 <= i < |tables.value| ==>
           r.value[2 * i] == DataResource(db, tables.value[i])
           && r.value[2 * i + 1] == SchemaResource(db, tables.value[i])
  {
    var config := GetDbConfig(env);
    if config.Failure? {
      return Failure(config.error);
    }
    match tables {
      case Failure(_) =>
        r := Success([]);
      case Success(ts) =>
        var resources := TableResources(config.value.database, ts);
        r := Success(resources);
    }
  }

  /** The loop of `list_resources`: two entries appended per table. */
  method TableResources(database: string, tables: seq<string>) returns (resources: seq<Resource>)
    ensures |resources| == 2 * |tables|
    ensures forall i :: 0 <= i < |tables| ==>
      resources[2 * i] == DataResource(database, tables[i])
      && resources[2 * i + 1] == SchemaResource(database, tables[i])
  {
    resources := [];
    for i := 0 to |tables|
      invariant |resources| == 2 * i
      invariant forall j :: 0 <= j < i ==>
        resources[2 * j] == DataResource(database, tables[j])
        && resources[2 * j + 1] == SchemaResource(database, tables[j])
    {
      resources := resources + [DataResource(database, tables[i]), SchemaResource(database, tables[i])];
    }
  }

  // ---------------------------------------------------------------------
  // read_resource

  datatype ReadError =
    | ConfigFailed(config: ConfigError)
    | InvalidScheme(uri: string)
    | NoResourceType(uri: string)     // `parts[1]` raising IndexError
    | DatabaseError(message: string)  // the reader's RuntimeError

  function ReadErrorMessage(e: ReadError): string
  {
    match e
    case ConfigFailed(c) => ConfigErrorMessage(c)
    case InvalidScheme(u) => "Invalid URI scheme: " + u
    case NoResourceType(_) => "list index out of range"
    case DatabaseError(m) => "Database error: " + m
  }

  /** The table and resource type named by a URI. */
  datatype TableRef = TableRef(table: string, kind: string)

  function Prefix(database: string): string
  {
    Scheme + database + "/"
  }

  /** The prefix check and `split('/')` of `read_resource`. */
  function ParseUri(database: string, uri: string): (r: Result<TableRef, ReadError>)
    ensures r == Failure(InvalidScheme(uri)) <==> !StartsWith(uri, Prefix(database))
    ensures r == Failure(NoResourceType(uri)) <==> StartsWith(uri, Prefix(database)) && '/' !in uri[|Prefix(database)|..]
    ensures r.Success? ==> '/' !in r.value.table && '/' !in r.value.kind
  {
    var prefix := Prefix(database);
    if !StartsWith(uri, prefix) then Failure(InvalidScheme(uri))
    else
      var parts := Split(uri[|prefix|..], '/');
      if |parts| < 2 then
        SplitSingle(uri[|prefix|..], '/');
        JoinSplit(uri[|prefix|..], '/');
        assert parts == [parts[0]];
        Failure(NoResourceType(uri))
      else
        SplitSingle(uri[|prefix|..], '/');
        Success(TableRef(parts[0], parts[1]))
  }

  /** The table is the first segment after the prefix and the resource type
      the first piece of what follows it. */
  lemma ParseUriTable(database: string, table: string, tail: string)
    requires '/' !in table
    ensures ParseUri(database, Prefix(database) + table + "/" + tail)
            == Success(TableRef(table, Split(tail, '/')[0]))
  {
    var uri := Prefix(database) + table + "/" + tail;
    assert uri == Prefix(database) + (table + "/" + tail);
    assert StartsWith(uri, Prefix(database));
    assert uri[|Prefix(database)|..] == table + "/" + tail;
    SplitSeg(table, tail);
  }

  lemma SplitSeg(p: string, s: string)
    requires '/' !in p
    ensures Split(p + "/" + s, '/') == [p] + Split(s, '/')
  {
    SplitCons(p, '/', s);
    assert p + "/" + s == p + ['/'] + s;
  }

  /** Segments after the resource type are ignored. */
  lemma ParseUriExtra(database: string, table: string, kind: string, more: string)
    requires '/' !in table && '/' !in kind
    ensures ParseUri(database, Prefix(database) + table + "/" + (kind + "/" + more))
            == Success(TableRef(table, kind))
  {
    ParseUriTable(database, table, kind + "/" + more);
    SplitSeg(kind, more);
  }

  /** Every URI `list_resources` lists parses back to its table and type. */
  lemma ListedUriRoundTrip(database: string, table: string)
    requires '/' !in table
    ensures ParseUri(database, DataResource(database, table).uri) == Success(TableRef(table, "data"))
    ensures ParseUri(database, SchemaResource(database, table).uri) == Success(TableRef(table, "schema"))
  {
    ParseUriTable(database, table, "data");
    SplitSingle("data", '/');
    assert DataResource(database, table).uri == Prefix(database) + table + "/" + "data";
    ParseUriTable(database, table, "schema");
    SplitSingle("schema", '/');
    assert SchemaResource(database, table).uri == Prefix(database) + table + "/" + "schema";
  }

  /** The rows of a result set, every value already rendered by `str()`. */
  datatype ResultSet = ResultSet(columns: seq<string>, rows: seq<seq<string>>)

  /** `",".join(map(str, row))`: no quoting and no escaping. */
  function CsvLine(cells: seq<string>): string
  {
    Join(cells, ",")
  }

  function RowLines(rows: seq<seq<string>>): (lines: seq<string>)
    ensures |lines| == |rows| && forall i :: 0 <= i < |rows| ==> lines[i] == CsvLine(rows[i])
  {
    seq(|rows|, i requires 0 <= i < |rows| => CsvLine(rows[i]))
  }

  /** A header line of column names, then one line per row. */
  function RenderResultSet(rs: ResultSet): string
  {
    Join([CsvLine(rs.columns)] + RowLines(rs.rows), "\n")
  }

  /** One line per row and no header. */
  function RenderRows(rows: seq<seq<string>>): string
  {
    Join(RowLines(rows), "\n")
  }

  /** The query `SELECT * FROM t LIMIT 50` returns at most the first 50 rows. */
  const RowLimit: nat := 50

  /** What the table query returns, given the whole table. */
  function Limited(rs: ResultSet): ResultSet
  {
    ResultSet(rs.columns, Take(rs.rows, RowLimit))
  }

  /** `read_resource`: the configuration, the prefix and the split, then the
      data or schema query; `None` for any other resource type. The driver's
      answers for a table, its contents and its column descriptions, are
      inputs. */
  function ReadResource(env: Environment, uri: string,
                        data: string -> Result<ResultSet, string>,
                        columns: string -> Result<seq<seq<string>>, string>): (r: Result<Option<string>, ReadError>)
    ensures GetDbConfig(env).Failure? ==> r == Failure(ConfigFailed(GetDbConfig(env).error))
    ensures GetDbConfig(env).Success? && !StartsWith(uri, Prefix(GetDbConfig(env).value.database))
            ==> r == Failure(InvalidScheme(uri))
    ensures GetDbConfig(env).Success? && ParseUri(GetDbConfig(env).value.database, uri).Failure?
            ==> r == Failure(ParseUri(GetDbConfig(env).value.database, uri).error)
    ensures GetDbConfig(env).Success? && ParseUri(GetDbConfig(env).value.database, uri).Success? ==>
              var ref := ParseUri(GetDbConfig(env).value.database, uri).value;
              (ref.kind == "data" && data(ref.table).Failure? ==> r == Failure(DatabaseError(data(ref.table).error)))
              && (ref.kind == "schema" && columns(ref.table).Failure?
                  ==> r == Failure(DatabaseError(columns(ref.table).error)))
              && (ref.kind != "data" && ref.kind != "schema" ==> r == Success(None))
    ensures r.Success? && r.value.Some? ==>
              GetDbConfig(env).Success? && ParseUri(GetDbConfig(env).value.database, uri).Success?
              && ParseUri(GetDbConfig(env).value.database, uri).value.kind in {"data", "schema"}
  {
    match GetDbConfig(env)
    case Failure(e) => Failure(ConfigFailed(e))
    case Success(config) =>
      match ParseUri(config.database, uri)
      case Failure(e) => Failure(e)
      case Success(ref) =>
        if ref.kind == "data" then
          match data(ref.table)
          case Failure(m) => Failure(DatabaseError(m))
          case Success(rs) => Success(Some(RenderResultSet(Limited(rs))))
        else if ref.kind == "schema" then
          match columns(ref.table)
          case Failure(m) => Failure(DatabaseError(m))
          case Success(rows) => Success(Some(RenderRows(rows)))
        else
          Success(None)
  }

  predicate SingleLineCells(cells: seq<string>)
  {
    forall j :: 0 <= j < |cells| ==> SingleLine(cells[j])
  }

  lemma {:induction false} CsvLineSingle(cells: seq<string>)
    requires SingleLineCells(cells)
    ensures SingleLine(CsvLine(cells))
  {
    if |cells| > 1 {
      CsvLineSingle(cells[1..]);
      assert CsvLine(cells) == cells[0] + "," + CsvLine(cells[1..]);
    }
  }

  /** While no value holds a line break, the lines of a rendered result set
      are the header followed by one line per row. */
  lemma ResultSetLines(rs: ResultSet)
    requires SingleLineCells(rs.columns)
    requires forall i :: 0 <= i < |rs.rows| ==> SingleLineCells(rs.rows[i])
    ensures Split(RenderResultSet(rs), '\n') == [CsvLine(rs.columns)] + RowLines(rs.rows)
  {
    var lines := [CsvLine(rs.columns)] + RowLines(rs.rows);
    CsvLineSingle(rs.columns);
    forall i | 0 <= i < |lines| ensures '\n' !in lines[i] {
      if i > 0 {
        CsvLineSingle(rs.rows[i - 1]);
      }
    }
    SplitJoin(lines, '\n');
  }

  /** A data resource is the header and then the first 50 rows, or every row
      of a shorter table. */
  lemma DataResourceLines(rs: ResultSet)
    requires SingleLineCells(rs.columns)
    requires forall i :: 0 <= i < |rs.rows| ==> SingleLineCells(rs.rows[i])
    ensures var lines := Split(RenderResultSet(Limited(rs)), '\n');
            |lines| == 1 + (if |rs.rows| <= RowLimit then |rs.rows| else RowLimit)
            && lines[0] == CsvLine(rs.columns)
            && forall i :: 0 < i < |lines| ==> lines[i] == CsvLine(rs.rows[i - 1])
  {
    var l := Limited(rs);
    forall i | 0 <= i < |l.rows| ensures SingleLineCells(l.rows[i]) {
      assert l.rows[i] == rs.rows[i];
    }
    ResultSetLines(l);
  }

  /** A schema resource is one line per column-description row. */
  lemma SchemaResourceLines(rows: seq<seq<string>>)
    requires |rows| > 0
    requires forall i :: 0 <= i < |rows| ==> SingleLineCells(rows[i])
    ensures Split(RenderRows(rows), '\n') == RowLines(rows)
  {
    forall i | 0 <= i < |rows| ensures '\n' !in RowLines(rows)[i] {
      CsvLineSingle(rows[i]);
    }
    SplitJoin(RowLines(rows), '\n');
  }

  /** Values are not escaped: a value holding a comma reads like two values. */
  lemma CsvAmbiguous()
    ensures CsvLine(["a,b"]) == CsvLine(["a", "b"])
  {
  }

  /** Reading a listed data resource queries that very table. */
  lemma ReadListedData(env: Environment, table: string,
                       data: string -> Result<ResultSet, string>,
                       columns: string -> Result<seq<seq<string>>, string>)
    requires GetDbConfig(env).Success? && '/' !in table
    requires data(table).Success?
    ensures ReadResource(env, DataResource(GetDbConfig(env).value.database, table).uri, data, columns)
            == Success(Some(RenderResultSet(Limited(data(table).value))))
  {
    ListedUriRoundTrip(GetDbConfig(env).value.database, table);
  }

  /** Reading a listed schema resource describes that very table. */
  lemma ReadListedSchema(env: Environment, table: string,
                         data: string -> Result<ResultSet, string>,
                         columns: string -> Result<seq<seq<string>>, string>)
    requires GetDbConfig(env).Success? && '/' !in table
    requires columns(table).Success?
    ensures ReadResource(env, SchemaResource(GetDbConfig(env).value.database, table).uri, data, columns)
            == Success(Some(RenderRows(columns(table).value)))
  {
    ListedUriRoundTrip(GetDbConfig(env).value.database, table);
  }

  // ---------------------------------------------------------------------
  // get_sql_operation_type

  /** The type of the first statement, upper-cased, or `UNKNOWN` when the
      parser finds no statement; `statementTypes` holds the parser's
      `get_type()` of each statement it found. */
  function OperationType(statementTypes: seq<string>): (r: string)
    ensures |statementTypes| == 0 ==> r == "UNKNOWN"
    ensures |statementTypes| > 0 ==> |r| == |statementTypes[0]|
    ensures |statementTypes| > 0 ==> forall i :: 0 <= i < |r| ==> !IsLower(r[i])
    ensures |statementTypes| > 0 ==> forall i :: 0 <= i < |r| ==>
              !IsLower(statementTypes[0][i]) ==> r[i] == statementTypes[0][i]
    ensures |statementTypes| > 0 ==> forall i :: 0 <= i < |r| && IsLower(statementTypes[0][i]) ==>
              r[i] == (statementTypes[0][i] as int - 32) as char
  {
    if |statementTypes| == 0 then "UNKNOWN" else Upper(statementTypes[0])
  }

  /** Later statements never change the reported type. */
  lemma OperationTypeFirst(first: string, rest: seq<string>)
    ensures OperationType([first] + rest) == OperationType([first])
  {
  }

  // ---------------------------------------------------------------------
  // call_tool

  const ToolName := "execute_sql"

  /** What the driver does with a statement: rows with a description, a row
      count with no description, or a driver error. */
  datatype ExecOutcome = Rows(result: ResultSet) | RowsAffected(count: int) | DriverFailed(message: string)

  /** The errors `call_tool` raises rather than returns as text. */
  datatype ToolError =
    | ToolConfigFailed(config: ConfigError)
    | UnknownTool(name: string)
    | QueryRequired
    | QueryNotText  // the SQL parser's TypeError on a non-string query

  function ToolErrorMessage(e: ToolError): string
  {
    match e
    case ToolConfigFailed(c) => ConfigErrorMessage(c)
    case UnknownTool(n) => "Unknown tool: " + n
    case QueryRequired => "Query is required"
    case QueryNotText => "Expected text or file-like object"
  }

  /** The text returned for an executed statement. */
  function ExecuteText(outcome: ExecOutcome): (r: string)
    ensures outcome.RowsAffected? ==> r == RowsAffectedPrefix + IntToString(outcome.count)
    ensures outcome.DriverFailed? ==> r == DriverErrorPrefix + outcome.message
    ensures outcome.Rows? ==> r == RenderResultSet(outcome.result)
  {
    match outcome
    case Rows(rs) => RenderResultSet(rs)
    case RowsAffected(n) => RowsAffectedPrefix + IntToString(n)
    case DriverFailed(m) => DriverErrorPrefix + m
  }

  const RowsAffectedPrefix := "Query executed successfully. Rows affected: "
  const DriverErrorPrefix := "Error executing query: "

  /** `str(n)` reads back as `n` under `int()`, for negative counts too. */
  lemma IntToStringParse(n: int)
    ensures ParseInt(IntToString(n)) == Some(n)
    ensures '\n' !in IntToString(n)
  {
    var t := IntToString(n);
    var d := NatToString(if n < 0 then -n else n);
    assert '\n' !in d by {
      forall i | 0 <= i < |d| ensures d[i] != '\n' {
        assert IsDigit(d[i]);
      }
    }
    if n >= 0 {
      ParseIntDigits(n);
    } else {
      assert t == "-" + d && t[1..] == d;
      assert Unpadded(t) by {
        assert t[|t| - 1] == d[|d| - 1] && IsDigit(d[|d| - 1]);
      }
      StripUnpadded(t);
      NatToStringValue(-n);
      assert Strip(t) == t;
      assert !IsDigit(t[0]);
      assert DigitsValue(t[1..]) == -n;
    }
  }

  /** The row-count reply is one line, and the count after its prefix reads
      back as the driver's count. */
  lemma RowsAffectedReadsBack(n: int)
    ensures '\n' !in ExecuteText(RowsAffected(n))
    ensures StartsWith(ExecuteText(RowsAffected(n)), RowsAffectedPrefix)
    ensures ParseInt(ExecuteText(RowsAffected(n))[|RowsAffectedPrefix|..]) == Some(n)
  {
    IntToStringParse(n);
    PrefixSingleLine();
    var r := ExecuteText(RowsAffected(n));
    assert r == RowsAffectedPrefix + IntToString(n);
    assert r[|RowsAffectedPrefix|..] == IntToString(n);
  }

  lemma PrefixSingleLine()
    ensures '\n' !in RowsAffectedPrefix
  {
    assert forall i :: 0 <= i < |RowsAffectedPrefix| ==> RowsAffectedPrefix[i] != '\n';
  }

  /** A row-count reply starts with `Q`, an error reply with `E`. */
  lemma RepliesDiffer(n: int, m: string)
    ensures ExecuteText(RowsAffected(n)) != ExecuteText(DriverFailed(m))
  {
    assert ExecuteText(RowsAffected(n)) == RowsAffectedPrefix + IntToString(n);
    assert (RowsAffectedPrefix + IntToString(n))[0] == RowsAffectedPrefix[0] == 'Q';
    assert (DriverErrorPrefix + m)[0] == DriverErrorPrefix[0] == 'E';
  }

  /** Row-count and error replies determine the outcome they report: the two
      prefixes differ in their first letter, the count reads back, and the
      message follows its prefix. */
  lemma ExecuteTextDetermines(a: ExecOutcome, b: ExecOutcome)
    requires !a.Rows? && !b.Rows?
    requires ExecuteText(a) == ExecuteText(b)
    ensures a == b
  {
    var t := ExecuteText(a);
    if a.RowsAffected? && b.RowsAffected? {
      RowsAffectedReadsBack(a.count);
      RowsAffectedReadsBack(b.count);
    } else if a.DriverFailed? && b.DriverFailed? {
      assert a.message == t[|DriverErrorPrefix|..];
      assert b.message == t[|DriverErrorPrefix|..];
    } else if a.RowsAffected? {
      RepliesDiffer(a.count, b.message);
    } else {
      RepliesDiffer(b.count, a.message);
    }
  }

  /** The statement `call_tool` sends, once configuration, name and query pass. */
  function Admitted(env: Environment, name: string, args: Arguments): (r: Result<string, ToolError>)
    ensures r.Success? ==> r.value != "" && Get(args, "query") == VStr(r.value)
    ensures r.Success? <==> GetDbConfig(env).Success? && name == ToolName
                            && Supplied(args, "query") && Get(args, "query").VStr?
  {
    match GetDbConfig(env)
    case Failure(e) => Failure(ToolConfigFailed(e))
    case Success(_) =>
      if name != ToolName then Failure(UnknownTool(name))
      else if !Supplied(args, "query") then Failure(QueryRequired)
      else if !Get(args, "query").VStr? then Failure(QueryNotText)
      else Success(Get(args, "query").s)
  }

  function CallToolResult(env: Environment, name: string, args: Arguments, outcome: ExecOutcome)
    : (r: Result<string, ToolError>)
    ensures r.Failure? <==> Admitted(env, name, args).Failure?
    ensures r.Failure? ==> r.error == Admitted(env, name, args).error
    ensures r.Success? ==> r.value == ExecuteText(outcome)
  {
    match Admitted(env, name, args)
    case Failure(e) => Failure(e)
    case Success(_) => Success(ExecuteText(outcome))
  }

  /** The database the server talks to: the statements it has been sent and
      how many times it has been asked to commit. */
  class Database {
    var executed: seq<string>
    var commits: nat

    constructor ()
      ensures executed == [] && commits == 0
    {
      executed := [];
      commits := 0;
    }

    method Execute(query: string)
      modifies this
      ensures executed == old(executed) + [query] && commits == old(commits)
    {
      executed := executed + [query];
    }

    method Commit()
      modifies this
      ensures commits == old(commits) + 1 && executed == old(executed)
    {
      commits := commits + 1;
    }
  }

  /** `call_tool`: nothing reaches the database unless configuration, name
      and query all pass; a statement without a result set is committed
      before its row count is reported; driver errors come back as text. */
  method CallTool(db: Database, env: Environment, name: string, args: Arguments, outcome: ExecOutcome)
    returns (r: Result<string, ToolError>)
    modifies db
    ensures r == CallToolResult(env, name, args, outcome)
    ensures Admitted(env, name, args).Failure? ==> db.executed == old(db.executed) && db.commits == old(db.commits)
    ensures Admitted(env, name, args).Success? ==>
      db.executed == old(db.executed) + [Admitted(env, name, args).value]
      && db.commits == old(db.commits) + (if outcome.RowsAffected? then 1 else 0)
  {
    var admitted := Admitted(env, name, args);
    if admitted.Failure? {
      return Failure(admitted.error);
    }
    db.Execute(admitted.value);
    if outcome.RowsAffected? {
      db.Commit();
    }
    r := Success(ExecuteText(outcome));
  }

  /** The configuration is read before the tool name is looked at. */
  lemma ConfigBeforeName(env: Environment, name: string, args: Arguments, outcome: ExecOutcome)
    requires GetDbConfig(env).Failure?
    ensures CallToolResult(env, name, args, outcome) == Failure(ToolConfigFailed(GetDbConfig(env).error))
  {
  }

  /** Any other tool name is refused, whatever the arguments. */
  lemma UnknownToolRefused(env: Environment, name: string, args: Arguments, outcome: ExecOutcome)
    requires GetDbConfig(env).Success? && name != ToolName
    ensures CallToolResult(env, name, args, outcome) == Failure(UnknownTool(name))
  {
  }

  /** A missing, `None` or empty query is refused. */
  lemma EmptyQueryRefused(env: Environment, args: Arguments, outcome: ExecOutcome)
    requires GetDbConfig(env).Success?
    requires "query" !in args || args["query"] == VNone || args["query"] == VStr("")
    ensures CallToolResult(env, ToolName, args, outcome) == Failure(QueryRequired)
  {
  }

  /** There is no permission check on the statement: any two non-empty
      queries, a `SELECT` or a `DROP`, are treated alike. */
  lemma NoStatementGate(env: Environment, q1: string, q2: string, outcome: ExecOutcome)
    requires GetDbConfig(env).Success? && q1 != "" && q2 != ""
    ensures CallToolResult(env, ToolName, map["query" := VStr(q1)], outcome)
            == CallToolResult(env, ToolName, map["query" := VStr(q2)], outcome)
            == Success(ExecuteText(outcome))
  {
    AdmittedQuery(env, q1);
    AdmittedQuery(env, q2);
  }

  lemma AdmittedQuery(env: Environment, q: string)
    requires GetDbConfig(env).Success? && q != ""
    ensures Admitted(env, ToolName, map["query" := VStr(q)]) == Success(q)
  {
    var args := map["query" := VStr(q)];
    assert Get(args, "query") == VStr(q);
    assert Supplied(args, "query");
    var r := Admitted(env, ToolName, args);
    assert r.Success?;
    assert VStr(r.value) == VStr(q);
  }

  /** A result set is rendered exactly as a data resource is. */
  lemma ExecuteRowsLikeData(rs: ResultSet)
    requires SingleLineCells(rs.columns)
    requires forall i :: 0 <= i < |rs.rows| ==> SingleLineCells(rs.rows[i])
    ensures Split(ExecuteText(Rows(rs)), '\n') == [CsvLine(rs.columns)] + RowLines(rs.rows)
  {
    ResultSetLines(rs);
  }
}
