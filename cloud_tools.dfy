/** The cloud server's tools: the `call_tool` dispatch table, the
    required-argument checks each handler runs before it creates a client,
    the cluster blocks of `polardb_describe_db_clusters`, the request that
    `polardb_create_cluster` fills in and the not-found message of
    `polardb_describe_available_resources`. */
module CloudTools {
  import opened Text
  import opened Wrappers
  import opened Args
  import opened CloudResources

  datatype Tool =
    | DescribeRegions
    | DescribeDbClusters
    | DescribeDbCluster
    | DescribeAvailableResources
    | CreateCluster
    | DescribeDbNodeParameters
    | ModifyDbNodeParameters
    | DescribeSlowLogRecords
    | DescribeDbNodePerformance
    | DescribeDbClusterPerformance

  /** The name a tool is registered and called under. */
  function ToolName(t: Tool): (r: string)
    ensures StartsWith(r, "polardb_")
  {
    match t
    case DescribeRegions => "polardb_describe_regions"
    case DescribeDbClusters => "polardb_describe_db_clusters"
    case DescribeDbCluster => "polardb_describe_db_cluster"
    case DescribeAvailableResources => "polardb_describe_available_resources"
    case CreateCluster => "polardb_create_cluster"
    case DescribeDbNodeParameters => "polardb_describe_db_node_parameters"
    case ModifyDbNodeParameters => "polardb_modify_db_node_parameters"
    case DescribeSlowLogRecords => "polardb_describe_slow_log_records"
    case DescribeDbNodePerformance => "polardb_describe_db_node_performance"
    case DescribeDbClusterPerformance => "polardb_describe_db_cluster_performance"
  }

  /** The `if`/`elif` chain of `call_tool`: the tool a name selects, if any. */
  function LookupTool(name: string): (r: Option<Tool>)
    ensures r.Some? ==> ToolName(r.value) == name
    ensures r.None? <==> forall t: Tool :: ToolName(t) != name
  {
    if name == "polardb_describe_regions" then Some(DescribeRegions)
    else if name == "polardb_describe_db_clusters" then Some(DescribeDbClusters)
    else if name == "polardb_describe_db_cluster" then Some(DescribeDbCluster)
    else if name == "polardb_describe_available_resources" then Some(DescribeAvailableResources)
    else if name == "polardb_create_cluster" then Some(CreateCluster)
    else if name == "polardb_describe_db_node_parameters" then Some(DescribeDbNodeParameters)
    else if name == "polardb_modify_db_node_parameters" then Some(ModifyDbNodeParameters)
    else if name == "polardb_describe_slow_log_records" then Some(DescribeSlowLogRecords)
    else if name == "polardb_describe_db_node_performance" then Some(DescribeDbNodePerformance)
    else if name == "polardb_describe_db_cluster_performance" then Some(DescribeDbClusterPerformance)
    else None
  }

  /** No two tools share a name, so every registered name selects its own tool. */
  lemma LookupToolName(t: Tool)
    ensures LookupTool(ToolName(t)) == Some(t)
  {
    var r := LookupTool(ToolName(t));
    assert r.Some?;
    match t
    case DescribeRegions =>
    case DescribeDbClusters =>
    case DescribeDbCluster =>
    case DescribeAvailableResources =>
    case CreateCluster =>
    case DescribeDbNodeParameters =>
    case ModifyDbNodeParameters =>
    case DescribeSlowLogRecords =>
    case DescribeDbNodePerformance =>
    case DescribeDbClusterPerformance =>
  }

  /** An argument a handler insists on, and the text it replies when the
      argument is missing or empty. */
  datatype Requirement = Requirement(key: string, message: string)

  /** The required arguments of each handler, in the order it checks them. */
  function Required(t: Tool): (r: seq<Requirement>)
    ensures r == [] <==> t == DescribeRegions || t == DescribeAvailableResources || t == CreateCluster
    ensures forall i, j :: 0 <= i < j < |r| ==> r[i].key != r[j].key
  {
    match t
    case DescribeRegions => []
    case DescribeDbClusters => [Requirement("region_id", "Region ID is required")]
    case DescribeDbCluster => [Requirement("db_cluster_id", "DB Cluster ID is required")]
    case DescribeAvailableResources => []
    case CreateCluster => []
    case DescribeDbNodeParameters =>
      [Requirement("dbnode_id", "Database node ID is required"),
       Requirement("db_cluster_id", "DB cluster ID is required")]
    case ModifyDbNodeParameters =>
      [Requirement("db_cluster_id", "DB cluster ID is required"),
       Requirement("dbnode_ids", "Database node IDs are required"),
       Requirement("parameters", "Parameters are required")]
    case DescribeSlowLogRecords =>
      [Requirement("region_id", "Region ID is required"),
       Requirement("db_cluster_id", "DB Cluster ID is required"),
       Requirement("start_time", "Start time is required"),
       Requirement("end_time", "End time is required")]
    case DescribeDbNodePerformance =>
      [Requirement("dbnode_id", "Database node ID is required"),
       Requirement("key", "Performance key is required"),
       Requirement("start_time", "Start time is required"),
       Requirement("end_time", "End time is required")]
    case DescribeDbClusterPerformance =>
      [Requirement("db_cluster_id", "Database cluster ID is required"),
       Requirement("key", "Performance key is required"),
       Requirement("start_time", "Start time is required"),
       Requirement("end_time", "End time is required")]
  }

  /** Requirement `i` is the first one whose argument is missing or empty. */
  predicate FirstMissingAt(args: Arguments, reqs: seq<Requirement>, i: int)
  {
    0 <= i < |reqs| && !Supplied(args, reqs[i].key)
    && forall j :: 0 <= j < i ==> Supplied(args, reqs[j].key)
  }

  /** The `if not x: return "... is required"` checks, run in order. */
  function FirstMissing(args: Arguments, reqs: seq<Requirement>): (r: Option<string>)
    ensures r.None? <==> forall j :: 0 <= j < |reqs| ==> Supplied(args, reqs[j].key)
    ensures r.Some? ==> exists i :: FirstMissingAt(args, reqs, i) && r.value == reqs[i].message
  {
    if |reqs| == 0 then None
    else if !Supplied(args, reqs[0].key) then
      assert FirstMissingAt(args, reqs, 0);
      Some(reqs[0].message)
    else
      var r := FirstMissing(args, reqs[1..]);
      if r.Some? then
        var i :| FirstMissingAt(args, reqs[1..], i) && r.value == reqs[1..][i].message;
        assert FirstMissingAt(args, reqs, i + 1);
        r
      else
        r
  }

  /** The converse: the first missing argument's message is the one replied. */
  lemma {:induction false} FirstMissingIs(args: Arguments, reqs: seq<Requirement>, i: int)
    requires FirstMissingAt(args, reqs, i)
    ensures FirstMissing(args, reqs) == Some(reqs[i].message)
  {
    if i > 0 {
      assert Supplied(args, reqs[0].key);
      assert FirstMissingAt(args, reqs[1..], i - 1);
      FirstMissingIs(args, reqs[1..], i - 1);
    }
  }

  /** How far a handler gets on its own: a reply before any client exists, or
      on to `create_client` and the backend. */
  datatype Step = Reply(text: string) | CreateClient(tool: Tool)

  function Prologue(t: Tool, args: Arguments): (r: Step)
    ensures r.CreateClient? ==> r.tool == t
    ensures r.Reply? ==> exists i :: FirstMissingAt(args, Required(t), i) && r.text == Required(t)[i].message
  {
    match FirstMissing(args, Required(t))
    case Some(m) => Reply(m)
    case None => CreateClient(t)
  }

  /** `call_tool`: route the name, then run the handler's argument checks. */
  function CallTool(name: string, args: Arguments): (r: Result<Step, string>)
    ensures r.Failure? <==> forall t: Tool :: ToolName(t) != name
    ensures r.Failure? ==> r.error == "Unknown tool: " + name
    ensures r.Success? && r.value.CreateClient? ==> ToolName(r.value.tool) == name
  {
    match LookupTool(name)
    case None => Failure("Unknown tool: " + name)
    case Some(t) => Success(Prologue(t, args))
  }

  /** Each registered name reaches its own handler. */
  lemma DispatchRoutes(t: Tool, args: Arguments)
    ensures CallTool(ToolName(t), args) == Success(Prologue(t, args))
  {
    LookupToolName(t);
  }

  /** A handler reaches the client exactly when every required argument is
      there, and otherwise replies with the first missing one's message. */
  lemma PrologueOutcome(t: Tool, args: Arguments)
    ensures Prologue(t, args) == CreateClient(t)
            <==> forall j :: 0 <= j < |Required(t)| ==> Supplied(args, Required(t)[j].key)
    ensures forall i :: FirstMissingAt(args, Required(t), i)
             ==> Prologue(t, args) == Reply(Required(t)[i].message)
  {
    forall i | FirstMissingAt(args, Required(t), i)
      ensures Prologue(t, args) == Reply(Required(t)[i].message)
    {
      FirstMissingIs(args, Required(t), i);
    }
  }

  /** The slow-log handler checks region, cluster, start and end, in that order. */
  lemma SlowLogOrder(args: Arguments)
    ensures Prologue(DescribeSlowLogRecords, args) ==
      if !Supplied(args, "region_id") then Reply("Region ID is required")
      else if !Supplied(args, "db_cluster_id") then Reply("DB Cluster ID is required")
      else if !Supplied(args, "start_time") then Reply("Start time is required")
      else if !Supplied(args, "end_time") then Reply("End time is required")
      else CreateClient(DescribeSlowLogRecords)
  {
    var reqs := Required(DescribeSlowLogRecords);
    if !Supplied(args, "region_id") {
      FirstMissingIs(args, reqs, 0);
    } else if !Supplied(args, "db_cluster_id") {
      FirstMissingIs(args, reqs, 1);
    } else if !Supplied(args, "start_time") {
      FirstMissingIs(args, reqs, 2);
    } else if !Supplied(args, "end_time") {
      FirstMissingIs(args, reqs, 3);
    }
  }

  // ---------------------------------------------------------------------
  // polardb_describe_db_clusters

  /** A cluster record as a dictionary: an absent key renders as `N/A`. */
  type Record = map<string, string>

  function Field(rec: Record, key: string): (r: string)
    ensures key !in rec ==> r == "N/A"
    ensures key in rec ==> r == rec[key]
  {
    if key in rec then rec[key] else "N/A"
  }

  function RecordLines(rec: Record): seq<string>
  {
    ClusterBlockLines(Field(rec, "DBClusterId"), Field(rec, "DBClusterDescription"),
                      Field(rec, "DBClusterStatus"), Field(rec, "DBType"),
                      Field(rec, "DBVersion"), Field(rec, "CreateTime"))
  }

  function RecordBlocks(rs: seq<Record>): (blocks: seq<seq<string>>)
    ensures |blocks| == |rs| && forall k :: 0 <= k < |rs| ==> blocks[k] == RecordLines(rs[k])
  {
    seq(|rs|, k requires 0 <= k < |rs| => RecordLines(rs[k]))
  }

  /** The parsed response: the records under `Items.DBCluster` (empty when
      either key is absent) and the dictionary's printed form. */
  datatype ClusterPage = ClusterPage(records: seq<Record>, shown: string)

  function DescribeDbClustersText(args: Arguments, resp: Fetch<ClusterPage>): (r: string)
    ensures !Supplied(args, "region_id") ==> r == "Region ID is required"
    ensures Supplied(args, "region_id") && resp.Fetched? && |resp.body.records| > 0
            ==> r == ListingText(RecordBlocks(resp.body.records))
    ensures Supplied(args, "region_id") && resp.Fetched? && |resp.body.records| == 0
            ==> StartsWith(r, "No PolarDB clusters found in region " + Str(Get(args, "region_id")))
  {
    match Prologue(DescribeDbClusters, args)
    case Reply(m) => m
    case CreateClient(_) =>
      match resp
      case NoClient => NoClientText
      case Raised(m) => ClustersErrorPrefix + m
      case Fetched(page) =>
        if |page.records| == 0 then
          "No PolarDB clusters found in region " + Str(Get(args, "region_id")) + "\n"
          + "Response body: " + page.shown
        else
          ListingText(RecordBlocks(page.records))
  }

  /** `polardb_describe_db_clusters`, with the block loop as `RenderListing`. */
  method DescribeDbClustersTool(args: Arguments, resp: Fetch<ClusterPage>) returns (text: string)
    ensures text == DescribeDbClustersText(args, resp)
  {
    if !Supplied(args, "region_id") {
      return "Region ID is required";
    }
    match resp {
      case NoClient => text := NoClientText;
      case Raised(m) => text := ClustersErrorPrefix + m;
      case Fetched(page) =>
        var blocks := RecordBlocks(page.records);
        if |blocks| > 0 {
          text := RenderListing(blocks);
        } else {
          text := "No PolarDB clusters found in region " + Str(Get(args, "region_id")) + "\n"
                  + "Response body: " + page.shown;
        }
    }
  }

  /** Each field of a block shows the record's value, or `N/A` when absent. */
  lemma RecordNotAvailable(rec: Record)
    ensures |RecordLines(rec)| == 6
    ensures "DBClusterId" !in rec ==> RecordLines(rec)[0] == "Cluster ID: N/A"
    ensures "DBClusterDescription" !in rec ==> RecordLines(rec)[1] == "Description: N/A"
    ensures "DBClusterStatus" !in rec ==> RecordLines(rec)[2] == "Status: N/A"
    ensures "DBType" !in rec && "DBVersion" !in rec ==> RecordLines(rec)[3] == "Engine: N/A N/A"
    ensures "CreateTime" !in rec ==> RecordLines(rec)[4] == "Created: N/A"
    ensures RecordLines(rec)[5] == Separator
  {
  }

  /** With no line break inside any value, the listing is exactly six lines
      per record, each one that record's block. */
  lemma {:induction false} DbClustersListingLines(args: Arguments, page: ClusterPage)
    requires Supplied(args, "region_id") && |page.records| > 0
    requires forall k :: 0 <= k < |page.records| ==> forall f :: f in page.records[k] ==> SingleLine(page.records[k][f])
    ensures var lines := Split(DescribeDbClustersText(args, Fetched(page)), '\n');
            |lines| == 6 * |page.records|
            && forall k :: 0 <= k < |page.records| ==> lines[6 * k .. 6 * k + 6] == RecordLines(page.records[k])
  {
    var rs := page.records;
    var blocks := RecordBlocks(rs);
    DbClustersPrologue(args);
    assert Prologue(DescribeDbClusters, args) == CreateClient(DescribeDbClusters);
    assert DescribeDbClustersText(args, Fetched(page)) == ListingText(blocks);
    forall k | 0 <= k < |blocks|
      ensures |blocks[k]| == 6
      ensures forall j :: 0 <= j < |blocks[k]| ==> SingleLine(blocks[k][j])
    {
      RecordSingleLine(rs[k]);
    }
    ListingBlocks(blocks);
    forall k | 0 <= k < |rs| ensures blocks[k] == RecordLines(rs[k]) { }
  }

  lemma RecordSingleLine(rec: Record)
    requires forall f :: f in rec ==> SingleLine(rec[f])
    ensures |RecordLines(rec)| == 6
    ensures forall j :: 0 <= j < 6 ==> SingleLine(RecordLines(rec)[j])
  {
    var fs := ["DBClusterId", "DBClusterDescription", "DBClusterStatus", "DBType", "DBVersion", "CreateTime"];
    forall i | 0 <= i < |fs| ensures SingleLine(Field(rec, fs[i])) {
      if fs[i] !in rec {
        assert Field(rec, fs[i]) == "N/A";
      }
    }
    assert forall i :: 0 <= i < |fs| ==> SingleLine(Field(rec, fs[i]));
    ClusterBlockSingleLine(Field(rec, fs[0]), Field(rec, fs[1]), Field(rec, fs[2]),
                           Field(rec, fs[3]), Field(rec, fs[4]), Field(rec, fs[5]));
  }

  /** The region check is the whole prologue of this handler. */
  lemma DbClustersPrologue(args: Arguments)
    ensures Prologue(DescribeDbClusters, args) ==
      if Supplied(args, "region_id") then CreateClient(DescribeDbClusters)
      else Reply("Region ID is required")
  {
    if !Supplied(args, "region_id") {
      FirstMissingIs(args, Required(DescribeDbClusters), 0);
    }
  }

  /** An empty listing names the region first. */
  lemma EmptyListingNamesRegion(args: Arguments, page: ClusterPage)
    requires Supplied(args, "region_id") && |page.records| == 0
    ensures StartsWith(DescribeDbClustersText(args, Fetched(page)),
                       "No PolarDB clusters found in region " + Str(Get(args, "region_id")))
  {
  }

  /** Without a region the reply does not depend on the backend at all. */
  lemma DbClustersNeedRegion(args: Arguments, a: Fetch<ClusterPage>, b: Fetch<ClusterPage>)
    requires !Supplied(args, "region_id")
    ensures DescribeDbClustersText(args, a) == DescribeDbClustersText(args, b) == "Region ID is required"
  {
  }

  // ---------------------------------------------------------------------
  // polardb_describe_available_resources

  const NoResourcesFound := "No PolarDB available resources found"

  /** The text of one optional clause: present only for a supplied argument. */
  function Clause(args: Arguments, key: string, lead: string): (r: string)
    ensures r == "" <==> !Supplied(args, key)
  {
    if Supplied(args, key) then lead + Str(Get(args, key)) else ""
  }

  /** The not-found message, built clause by clause: region, zone, DB type. */
  function NotFoundMessage(args: Arguments): (r: string)
    ensures StartsWith(r, NoResourcesFound)
    ensures r == NoResourcesFound
            <==> !Supplied(args, "region_id") && !Supplied(args, "zone_id") && !Supplied(args, "db_type")
  {
    NoResourcesFound
    + Clause(args, "region_id", " in region ")
    + Clause(args, "zone_id", " for zone ")
    + Clause(args, "db_type", " for DB type ")
  }

  /** With no filter supplied, the message is the bare sentence. */
  lemma NotFoundBare(args: Arguments)
    requires !Supplied(args, "region_id") && !Supplied(args, "zone_id") && !Supplied(args, "db_type")
    ensures NotFoundMessage(args) == NoResourcesFound
  {
  }

  /** With all three filters supplied as text, each appears, in order. */
  lemma NotFoundAll(region: string, zone: string, dbType: string, args: Arguments)
    requires region != "" && zone != "" && dbType != ""
    requires Get(args, "region_id") == VStr(region) && Get(args, "zone_id") == VStr(zone)
    requires Get(args, "db_type") == VStr(dbType)
    ensures NotFoundMessage(args) ==
      NoResourcesFound + " in region " + region + " for zone " + zone + " for DB type " + dbType
  {
  }

  /** Every supplied filter is named in the message. */
  lemma NotFoundMentions(args: Arguments)
    ensures Supplied(args, "region_id") ==> Contains(NotFoundMessage(args), " in region " + Str(Get(args, "region_id")))
    ensures Supplied(args, "zone_id") ==> Contains(NotFoundMessage(args), " for zone " + Str(Get(args, "zone_id")))
    ensures Supplied(args, "db_type") ==> Contains(NotFoundMessage(args), " for DB type " + Str(Get(args, "db_type")))
  {
    var r := Clause(args, "region_id", " in region ");
    var z := Clause(args, "zone_id", " for zone ");
    var t := Clause(args, "db_type", " for DB type ");
    assert NotFoundMessage(args) == NoResourcesFound + r + (z + t);
    ContainsInfix(NoResourcesFound, r, z + t);
    assert NotFoundMessage(args) == (NoResourcesFound + r) + z + t;
    ContainsInfix(NoResourcesFound + r, z, t);
    assert NotFoundMessage(args) == (NoResourcesFound + r + z) + t + "";
    ContainsInfix(NoResourcesFound + r + z, t, "");
  }

  /** Arguments other than the three filters (db_version, pay_type, ...) never
      change the message. */
  lemma NotFoundIgnores(args: Arguments, k: string, v: Value)
    requires k != "region_id" && k != "zone_id" && k != "db_type"
    ensures NotFoundMessage(args[k := v]) == NotFoundMessage(args)
  {
    assert Get(args[k := v], "region_id") == Get(args, "region_id");
    assert Get(args[k := v], "zone_id") == Get(args, "zone_id");
    assert Get(args[k := v], "db_type") == Get(args, "db_type");
  }

  // ---------------------------------------------------------------------
  // polardb_create_cluster

  /** `storage_space`: a string of ASCII digits becomes its integer; any other
      value is passed on untouched. */
  function StorageSpace(v: Value): (r: Value)
    ensures v.VStr? && IsDigits(v.s) ==> r == VInt(DigitsValue(v.s))
    ensures !(v.VStr? && IsDigits(v.s)) ==> r == v
  {
    if v.VStr? && IsDigits(v.s) then VInt(DigitsValue(v.s)) else v
  }

  /** The decimal text of a number converts back to that number. */
  lemma StorageSpaceDigits(n: nat)
    ensures StorageSpace(VStr(NatToString(n))) == VInt(n)
  {
    NatToStringValue(n);
  }

  /** The fields of the create request that `polardb_create_cluster` sets. */
  datatype RequestField =
    | RegionId | DbType | DbVersion | DbNodeClass | PayType | StorageSpaceField
    | ZoneId | VpcId | VSwitchId | TdeStatus | DbClusterDescription
    | ResourceGroupId | Period | UsedTime | ClientToken

  /** The fields set only when their argument key is present. */
  predicate Optional(f: RequestField)
  {
    !(f.RegionId? || f.DbType? || f.DbVersion? || f.DbNodeClass? || f.PayType? || f.StorageSpaceField?)
  }

  /** The argument key each field is read from; `vpc_id` fills the `vpcid` field. */
  function ArgumentKey(f: RequestField): string
  {
    match f
    case RegionId => "region_id"
    case DbType => "dbtype"
    case DbVersion => "dbversion"
    case DbNodeClass => "dbnode_class"
    case PayType => "pay_type"
    case StorageSpaceField => "storage_space"
    case ZoneId => "zone_id"
    case VpcId => "vpc_id"
    case VSwitchId => "vswitch_id"
    case TdeStatus => "tde_status"
    case DbClusterDescription => "db_cluster_description"
    case ResourceGroupId => "resource_group_id"
    case Period => "period"
    case UsedTime => "used_time"
    case ClientToken => "client_token"
  }

  /** The request `polardb_create_cluster` sends, as field to value. */
  class CreateDBClusterRequest {
    var fields: map<RequestField, Value>

    constructor ()
      ensures fields == map[]
    {
      fields := map[];
    }

    /** The field assignments of `polardb_create_cluster`, in source order. */
    method ApplyArguments(args: Arguments)
      modifies this
      ensures forall f :: f in fields <==> f in old(fields) || !Optional(f) || ArgumentKey(f) in args
      ensures RegionId in fields && fields[RegionId] == GetOr(args, "region_id", VStr("cn-hangzhou"))
      ensures DbType in fields && fields[DbType] == GetOr(args, "dbtype", VStr("MySQL"))
      ensures DbVersion in fields && fields[DbVersion] == GetOr(args, "dbversion", VStr("8.0"))
      ensures DbNodeClass in fields && fields[DbNodeClass] == GetOr(args, "dbnode_class", VStr("polar.mysql.g2.medium"))
      ensures PayType in fields && fields[PayType] == GetOr(args, "pay_type", VStr("Postpaid"))
      ensures StorageSpaceField in fields
              && fields[StorageSpaceField] == StorageSpace(GetOr(args, "storage_space", VInt(50)))
      ensures forall f :: Optional(f) && ArgumentKey(f) in args ==> fields[f] == args[ArgumentKey(f)]
      ensures forall f :: f in old(fields) && Optional(f) && ArgumentKey(f) !in args ==> fields[f] == old(fields)[f]
    {
      ApplyDefaults(args);
      ApplyOptional(args);
    }

    /** The six fields that always get a value: the argument if present, else the default. */
    method ApplyDefaults(args: Arguments)
      modifies this
      ensures forall f :: f in fields <==> f in old(fields) || !Optional(f)
      ensures RegionId in fields && fields[RegionId] == GetOr(args, "region_id", VStr("cn-hangzhou"))
      ensures DbType in fields && fields[DbType] == GetOr(args, "dbtype", VStr("MySQL"))
      ensures DbVersion in fields && fields[DbVersion] == GetOr(args, "dbversion", VStr("8.0"))
      ensures DbNodeClass in fields && fields[DbNodeClass] == GetOr(args, "dbnode_class", VStr("polar.mysql.g2.medium"))
      ensures PayType in fields && fields[PayType] == GetOr(args, "pay_type", VStr("Postpaid"))
      ensures StorageSpaceField in fields && fields[StorageSpaceField] == StorageSpace(GetOr(args, "storage_space", VInt(50)))
      ensures forall f :: f in old(fields) && Optional(f) ==> fields[f] == old(fields)[f]
    {
      var m := fields;
      m := m[RegionId := GetOr(args, "region_id", VStr("cn-hangzhou"))];
      m := m[DbType := GetOr(args, "dbtype", VStr("MySQL"))];
      m := m[DbVersion := GetOr(args, "dbversion", VStr("8.0"))];
      m := m[DbNodeClass := GetOr(args, "dbnode_class", VStr("polar.mysql.g2.medium"))];
      m := m[PayType := GetOr(args, "pay_type", VStr("Postpaid"))];
      var storage := GetOr(args, "storage_space", VInt(50));
      m := m[StorageSpaceField := StorageSpace(storage)];
      fields := m;
    }

    /** The nine optional assignments; each leaves the six defaulted fields alone. */
    method ApplyOptional(args: Arguments)
      modifies this
      ensures forall f :: f in fields <==> f in old(fields) || (Optional(f) && ArgumentKey(f) in args)
      ensures forall f :: Optional(f) && ArgumentKey(f) in args ==> fields[f] == args[ArgumentKey(f)]
      ensures forall f :: f in old(fields) && !(Optional(f) && ArgumentKey(f) in args) ==> fields[f] == old(fields)[f]
    {
      ghost var m0 := fields;
      SetIfPresent(args, ZoneId);
      ghost var m1 := fields;
      SetIfPresent(args, VpcId);
      ghost var m2 := fields;
      SetIfPresent(args, VSwitchId);
      ghost var m3 := fields;
      SetIfPresent(args, TdeStatus);
      ghost var m4 := fields;
      SetIfPresent(args, DbClusterDescription);
      ghost var m5 := fields;
      SetIfPresent(args, ResourceGroupId);
      ghost var m6 := fields;
      SetIfPresent(args, Period);
      ghost var m7 := fields;
      SetIfPresent(args, UsedTime);
      ghost var m8 := fields;
      SetIfPresent(args, ClientToken);
      ghost var m9 := fields;
      NineSteps(m0, m1, m2, m3, m4, m5, m6, m7, m8, m9, args);
    }

    /** Copy the field's argument into it when the key is present at all. */
    method SetIfPresent(args: Arguments, f: RequestField)
      modifies this
      ensures fields == IfPresent(old(fields), args, f)
    {
      if ArgumentKey(f) in args {
        fields := fields[f := args[ArgumentKey(f)]];
      }
    }
  }

  function IfPresent(m: map<RequestField, Value>, args: Arguments, f: RequestField): map<RequestField, Value>
  {
    if ArgumentKey(f) in args then m[f := args[ArgumentKey(f)]] else m
  }

  /** `m` is `start` after the conditional assignments of the fields in `done`. */
  ghost predicate Applied(start: map<RequestField, Value>, m: map<RequestField, Value>,
                          args: Arguments, done: set<RequestField>)
  {
    (forall f :: f in m <==> f in start || (f in done && ArgumentKey(f) in args))
    && (forall f :: f in done && ArgumentKey(f) in args ==> m[f] == args[ArgumentKey(f)])
    && (forall f :: f in start && !(f in done && ArgumentKey(f) in args) ==> m[f] == start[f])
  }

  lemma SetStep(start: map<RequestField, Value>, prev: map<RequestField, Value>, next: map<RequestField, Value>,
                args: Arguments, done: set<RequestField>, f: RequestField)
    requires done == {} ==> prev == start
    requires done != {} ==> Applied(start, prev, args, done)
    requires next == IfPresent(prev, args, f)
    ensures Applied(start, next, args, done + {f})
  {
  }

  /** Three conditional copies in a row extend what has been applied by their three fields. */
  lemma ThreeSteps(start: map<RequestField, Value>, prev: map<RequestField, Value>, a: map<RequestField, Value>,
                   b: map<RequestField, Value>, c: map<RequestField, Value>, args: Arguments,
                   done: set<RequestField>, f1: RequestField, f2: RequestField, f3: RequestField)
    requires done == {} ==> prev == start
    requires done != {} ==> Applied(start, prev, args, done)
    requires a == IfPresent(prev, args, f1) && b == IfPresent(a, args, f2) && c == IfPresent(b, args, f3)
    ensures Applied(start, c, args, done + {f1, f2, f3})
  {
    SetStep(start, prev, a, args, done, f1);
    SetStep(start, a, b, args, done + {f1}, f2);
    assert done + {f1} + {f2} + {f3} == done + {f1, f2, f3};
    SetStep(start, b, c, args, done + {f1} + {f2}, f3);
  }

  /** The nine conditional copies of `polardb_create_cluster`, in order. */
  lemma NineSteps(m0: map<RequestField, Value>, m1: map<RequestField, Value>, m2: map<RequestField, Value>,
                  m3: map<RequestField, Value>, m4: map<RequestField, Value>, m5: map<RequestField, Value>,
                  m6: map<RequestField, Value>, m7: map<RequestField, Value>, m8: map<RequestField, Value>,
                  m9: map<RequestField, Value>, args: Arguments)
    requires m1 == IfPresent(m0, args, ZoneId) && m2 == IfPresent(m1, args, VpcId)
    requires m3 == IfPresent(m2, args, VSwitchId) && m4 == IfPresent(m3, args, TdeStatus)
    requires m5 == IfPresent(m4, args, DbClusterDescription) && m6 == IfPresent(m5, args, ResourceGroupId)
    requires m7 == IfPresent(m6, args, Period) && m8 == IfPresent(m7, args, UsedTime)
    requires m9 == IfPresent(m8, args, ClientToken)
    ensures forall f :: f in m9 <==> f in m0 || (Optional(f) && ArgumentKey(f) in args)
    ensures forall f :: Optional(f) && ArgumentKey(f) in args ==> m9[f] == args[ArgumentKey(f)]
    ensures forall f :: f in m0 && !(Optional(f) && ArgumentKey(f) in args) ==> m9[f] == m0[f]
  {
    ThreeSteps(m0, m0, m1, m2, m3, args, {}, ZoneId, VpcId, VSwitchId);
    assert {} + {ZoneId, VpcId, VSwitchId} == {ZoneId, VpcId, VSwitchId};
    ThreeSteps(m0, m3, m4, m5, m6, args, {ZoneId, VpcId, VSwitchId},
               TdeStatus, DbClusterDescription, ResourceGroupId);
    assert {ZoneId, VpcId, VSwitchId} + {TdeStatus, DbClusterDescription, ResourceGroupId}
        == {ZoneId, VpcId, VSwitchId, TdeStatus, DbClusterDescription, ResourceGroupId};
    ThreeSteps(m0, m6, m7, m8, m9, args,
               {ZoneId, VpcId, VSwitchId, TdeStatus, DbClusterDescription, ResourceGroupId},
               Period, UsedTime, ClientToken);
    assert {ZoneId, VpcId, VSwitchId, TdeStatus, DbClusterDescription, ResourceGroupId}
           + {Period, UsedTime, ClientToken}
        == {ZoneId, VpcId, VSwitchId, TdeStatus, DbClusterDescription, ResourceGroupId,
            Period, UsedTime, ClientToken};
    OptionalFields(m0, m9, args);
  }

  lemma OptionalFields(start: map<RequestField, Value>, m: map<RequestField, Value>, args: Arguments)
    requires Applied(start, m, args, {ZoneId, VpcId, VSwitchId, TdeStatus, DbClusterDescription,
                                      ResourceGroupId, Period, UsedTime, ClientToken})
    ensures forall f :: f in m <==> f in start || (Optional(f) && ArgumentKey(f) in args)
    ensures forall f :: Optional(f) && ArgumentKey(f) in args ==> m[f] == args[ArgumentKey(f)]
    ensures forall f :: f in start && !(Optional(f) && ArgumentKey(f) in args) ==> m[f] == start[f]
  {
    var done := {ZoneId, VpcId, VSwitchId, TdeStatus, DbClusterDescription,
                 ResourceGroupId, Period, UsedTime, ClientToken};
    forall f
      ensures (f in m <==> f in start || (Optional(f) && ArgumentKey(f) in args))
              && (Optional(f) && ArgumentKey(f) in args ==> m[f] == args[ArgumentKey(f)])
              && (f in start && !(Optional(f) && ArgumentKey(f) in args) ==> m[f] == start[f])
    {
      assert Optional(f) == (f in done);
    }
  }

  /** `polardb_create_cluster` up to the API call: a fresh request filled in
      from the arguments (the client is created before this point). */
  method BuildCreateRequest(args: Arguments) returns (req: CreateDBClusterRequest)
    ensures fresh(req)
    ensures forall f :: f in req.fields <==> !Optional(f) || ArgumentKey(f) in args
    ensures RegionId in req.fields && req.fields[RegionId] == GetOr(args, "region_id", VStr("cn-hangzhou"))
    ensures DbType in req.fields && req.fields[DbType] == GetOr(args, "dbtype", VStr("MySQL"))
    ensures DbVersion in req.fields && req.fields[DbVersion] == GetOr(args, "dbversion", VStr("8.0"))
    ensures DbNodeClass in req.fields
            && req.fields[DbNodeClass] == GetOr(args, "dbnode_class", VStr("polar.mysql.g2.medium"))
    ensures PayType in req.fields && req.fields[PayType] == GetOr(args, "pay_type", VStr("Postpaid"))
    ensures StorageSpaceField in req.fields
            && req.fields[StorageSpaceField] == StorageSpace(GetOr(args, "storage_space", VInt(50)))
    ensures forall f :: Optional(f) && ArgumentKey(f) in args ==> req.fields[f] == args[ArgumentKey(f)]
    ensures args == map[] ==> req.fields == map[
      RegionId := VStr("cn-hangzhou"), DbType := VStr("MySQL"), DbVersion := VStr("8.0"),
      DbNodeClass := VStr("polar.mysql.g2.medium"), PayType := VStr("Postpaid"),
      StorageSpaceField := VInt(50)]
  {
    req := new CreateDBClusterRequest();
    req.ApplyArguments(args);
  }
}
