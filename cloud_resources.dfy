/** The resources of the cloud-management server (polardb-openapi-mcp-server):
    resolving a `polardb-mysql://` URI to one of three listings, rendering the
    region and cluster listings the cloud API returns, and aggregating the
    per-region cluster listings. The cloud API itself is an input value. */
module CloudResources {
  import opened Text
  import opened Wrappers

  const Scheme := "polardb-mysql://"

  /** What a cloud resource URI can name. */
  datatype CloudResource = RegionList | AllClusters | RegionClusters(regionId: string)

  /** The two `ValueError`s `read_resource` raises. */
  datatype UriError = InvalidScheme(uri: string) | InvalidUri(uri: string)

  function UriErrorMessage(e: UriError): string
  {
    match e
    case InvalidScheme(u) => "Invalid URI scheme: " + u
    case InvalidUri(u) => "Invalid URI: " + u
  }

  /** Routing of `read_resource`: strip the scheme, split the rest on `/`, and
      match the segments against the three shapes. */
  function Resolve(uri: string): (r: Result<CloudResource, UriError>)
    ensures r.Failure? ==> r.error.uri == uri
    ensures r == Failure(InvalidScheme(uri)) <==> !StartsWith(uri, Scheme)
  {
    if StartsWith(uri, Scheme) then
      var parts := Split(uri[|Scheme|..], '/');
      if |parts| == 1 && parts[0] == "regions" then Success(RegionList)
      else if |parts| == 1 && parts[0] == "clusters" then Success(AllClusters)
      else if |parts| == 2 && parts[1] == "clusters" then Success(RegionClusters(parts[0]))
      else Failure(InvalidUri(uri))
    else
      Failure(InvalidScheme(uri))
  }

  lemma SchemeRest(uri: string)
    requires StartsWith(uri, Scheme)
    ensures uri == Scheme + uri[|Scheme|..]
  {
  }

  /** Exactly one URI names the region listing. */
  lemma ResolveRegionList(uri: string)
    ensures Resolve(uri) == Success(RegionList) <==> uri == Scheme + "regions"
  {
    if uri == Scheme + "regions" {
      assert uri[|Scheme|..] == "regions";
      SplitSingle("regions", '/');
    }
    if Resolve(uri) == Success(RegionList) {
      SchemeRest(uri);
      JoinSplit(uri[|Scheme|..], '/');
    }
  }

  /** Exactly one URI names the listing across all regions. */
  lemma ResolveAllClusters(uri: string)
    ensures Resolve(uri) == Success(AllClusters) <==> uri == Scheme + "clusters"
  {
    if uri == Scheme + "clusters" {
      assert uri[|Scheme|..] == "clusters";
      SplitSingle("clusters", '/');
    }
    if Resolve(uri) == Success(AllClusters) {
      SchemeRest(uri);
      JoinSplit(uri[|Scheme|..], '/');
    }
  }

  /** `{region}/clusters` names the listing of that region, for any region
      without a `/`, and nothing else names it. */
  lemma ResolveRegionClusters(uri: string, region: string)
    ensures Resolve(uri) == Success(RegionClusters(region))
            <==> '/' !in region && uri == Scheme + region + "/clusters"
  {
    if '/' !in region && uri == Scheme + region + "/clusters" {
      var rest := uri[|Scheme|..];
      assert rest == region + "/" + "clusters";
      assert Join([region, "clusters"], "/") == rest;
      SplitJoin([region, "clusters"], '/');
    }
    if Resolve(uri) == Success(RegionClusters(region)) {
      var rest := uri[|Scheme|..];
      var parts := Split(rest, '/');
      SchemeRest(uri);
      JoinSplit(rest, '/');
      assert parts == [region, "clusters"];
      assert '/' !in parts[0];
      assert Join(parts, "/") == region + "/" + "clusters";
    }
  }

  /** The cloud API's answer, as the helpers see it: no client could be
      created, the call raised, or a response body came back. */
  datatype Fetch<T> = NoClient | Raised(message: string) | Fetched(body: T)

  const NoClientText := "Failed to create " + "PolarDB client. " + "Please check your credentials."

  const RegionsErrorHead := "Error retrieving regions"

  const ClustersErrorPrefix := "Error retrieving clusters: "

  /** One region of a `DescribeRegions` answer. */
  datatype Region = Region(regionId: string, localName: string)

  function RegionLine(r: Region): string
  {
    r.regionId + ": " + r.localName
  }

  function RegionLines(rs: seq<Region>): (lines: seq<string>)
    ensures |lines| == |rs|
    ensures forall k :: 0 <= k < |rs| ==> lines[k] == RegionLine(rs[k])
  {
    seq(|rs|, k requires 0 <= k < |rs| => RegionLine(rs[k]))
  }

  function RegionIds(rs: seq<Region>): (ids: seq<string>)
    ensures |ids| == |rs|
    ensures forall k :: 0 <= k < |rs| ==> ids[k] == rs[k].regionId
  {
    seq(|rs|, k requires 0 <= k < |rs| => rs[k].regionId)
  }

  /** The text `get_polardb_regions` returns; `None` stands for a body without
      a region list. */
  function RegionsText(resp: Fetch<Option<seq<Region>>>): string
  {
    match resp
    case NoClient => NoClientText
    case Raised(m) => RegionsErrorHead + ": " + m
    case Fetched(None) => "No regions found or empty response"
    case Fetched(Some(rs)) => Join(RegionLines(rs), "\n")
  }

  /** `get_polardb_regions`: one `id: name` line per region, in API order. */
  method GetRegions(resp: Fetch<Option<seq<Region>>>) returns (text: string)
    ensures text == RegionsText(resp)
  {
    match resp {
      case NoClient => text := NoClientText;
      case Raised(m) => text := RegionsErrorHead + ": " + m;
      case Fetched(None) => text := "No regions found or empty response";
      case Fetched(Some(rs)) =>
        var info: seq<string> := [];
        for i := 0 to |rs|
          invariant |info| == i
          invariant forall k :: 0 <= k < i ==> info[k] == RegionLine(rs[k])
        {
          info := info + [RegionLine(rs[i])];
        }
        assert info == RegionLines(rs);
        text := Join(info, "\n");
    }
  }

  /** The line filter of the aggregator: non-empty and holding a `:`. */
  predicate NamesRegion(line: string)
  {
    line != "" && ':' in line
  }

  /** `line.split(":")[0].strip()` */
  function RegionIdOf(line: string): (id: string)
    ensures ':' !in id && Unpadded(id)
  {
    StripKeeps(BeforeFirst(line, ':'), ':');
    Strip(BeforeFirst(line, ':'))
  }

  /** The region ids the aggregator takes from a list of lines, in line order. */
  function RegionIdsOf(lines: seq<string>): (ids: seq<string>)
    ensures |ids| <= |lines|
  {
    if |lines| == 0 then []
    else
      var last := lines[|lines| - 1];
      RegionIdsOf(lines[..|lines| - 1]) + (if NamesRegion(last) then [RegionIdOf(last)] else [])
  }

  /** The ids of two consecutive runs of lines are the ids of the first run
      followed by those of the second: extraction keeps the line order. */
  lemma {:induction false} RegionIdsOfConcat(xs: seq<string>, ys: seq<string>)
    ensures RegionIdsOf(xs + ys) == RegionIdsOf(xs) + RegionIdsOf(ys)
  {
    if |ys| == 0 {
      assert xs + ys == xs;
    } else {
      var ys' := ys[..|ys| - 1];
      RegionIdsOfConcat(xs, ys');
      assert (xs + ys)[..|xs + ys| - 1] == xs + ys';
    }
  }

  /** A single line yields its id exactly when it is non-empty and holds a `:`. */
  lemma RegionIdsOfLine(line: string)
    ensures RegionIdsOf([line]) == if NamesRegion(line) then [RegionIdOf(line)] else []
  {
    assert [line][..0] == [];
  }

  /** The region ids `get_all_polardb_clusters` extracts from a regions text. */
  function ExtractRegionIds(text: string): seq<string>
  {
    RegionIdsOf(Split(text, '\n'))
  }

  /** The loop of `get_all_polardb_clusters` that collects region ids. */
  method CollectRegionIds(text: string) returns (ids: seq<string>)
    ensures ids == ExtractRegionIds(text)
  {
    var lines := Split(text, '\n');
    ids := [];
    for i := 0 to |lines|
      invariant ids == RegionIdsOf(lines[..i])
    {
      assert lines[..i + 1][..i] == lines[..i];
      if lines[i] != "" && ':' in lines[i] {
        ids := ids + [Strip(BeforeFirst(lines[i], ':'))];
      }
    }
    assert lines[..|lines|] == lines;
  }

  /** A region the cloud API can list and whose id the aggregator reads back unchanged. */
  predicate WellFormedRegion(r: Region)
  {
    ':' !in r.regionId && '\n' !in r.regionId && Unpadded(r.regionId) && '\n' !in r.localName
  }

  lemma RegionLineId(r: Region)
    requires WellFormedRegion(r)
    ensures NamesRegion(RegionLine(r)) && RegionIdOf(RegionLine(r)) == r.regionId
  {
    ColonLine(r.regionId, r.localName);
  }

  lemma {:induction false} RegionLinesIds(rs: seq<Region>)
    requires forall k :: 0 <= k < |rs| ==> WellFormedRegion(rs[k])
    ensures RegionIdsOf(RegionLines(rs)) == RegionIds(rs)
  {
    if |rs| > 0 {
      var rs' := rs[..|rs| - 1];
      RegionLinesIds(rs');
      RegionLinesSnoc(rs);
    }
  }

  lemma RegionLinesSnoc(rs: seq<Region>)
    requires |rs| > 0 && WellFormedRegion(rs[|rs| - 1])
    ensures RegionIdsOf(RegionLines(rs)) == RegionIdsOf(RegionLines(rs[..|rs| - 1])) + [rs[|rs| - 1].regionId]
    ensures RegionIds(rs) == RegionIds(rs[..|rs| - 1]) + [rs[|rs| - 1].regionId]
  {
    RegionIdsSnoc(rs);
    var lines := RegionLines(rs);
    var l := lines[|lines| - 1];
    assert lines[..|lines| - 1] == RegionLines(rs[..|rs| - 1]);
    assert l == RegionLine(rs[|rs| - 1]);
    RegionLineId(rs[|rs| - 1]);
    assert NamesRegion(l) && RegionIdOf(l) == rs[|rs| - 1].regionId;
    RegionIdsOfSnoc(lines);
  }

  lemma RegionIdsSnoc(rs: seq<Region>)
    requires |rs| > 0
    ensures RegionIds(rs) == RegionIds(rs[..|rs| - 1]) + [rs[|rs| - 1].regionId]
  {
    var a := RegionIds(rs);
    var b := RegionIds(rs[..|rs| - 1]) + [rs[|rs| - 1].regionId];
    forall k | 0 <= k < |a| ensures a[k] == b[k] {
      if k < |rs| - 1 {
        assert rs[..|rs| - 1][k] == rs[k];
      }
    }
  }

  lemma RegionIdsOfSnoc(lines: seq<string>)
    requires |lines| > 0
    ensures var l := lines[|lines| - 1];
            RegionIdsOf(lines) == RegionIdsOf(lines[..|lines| - 1]) + (if NamesRegion(l) then [RegionIdOf(l)] else [])
  {
  }

  /** Round trip between the two halves of the cloud server: the aggregator
      reads back from the region listing exactly the listed region ids, in order. */
  lemma RegionsRoundTrip(rs: seq<Region>)
    requires forall k :: 0 <= k < |rs| ==> WellFormedRegion(rs[k])
    ensures ExtractRegionIds(RegionsText(Fetched(Some(rs)))) == RegionIds(rs)
  {
    if |rs| == 0 {
      assert RegionsText(Fetched(Some(rs))) == "";
      assert Split("", '\n') == [""];
      RegionIdsOfLine("");
    } else {
      forall k | 0 <= k < |rs| ensures '\n' !in RegionLines(rs)[k] {
        assert RegionLines(rs)[k] == rs[k].regionId + ": " + rs[k].localName;
      }
      SplitJoin(RegionLines(rs), '\n');
      RegionLinesIds(rs);
    }
  }

  /** When the regions call raises, its error text is itself read as a region
      named "Error retrieving regions", which the aggregator then queries. */
  lemma RegionsErrorReadAsRegion(m: string)
    ensures |ExtractRegionIds(RegionsText(Raised(m)))| > 0
    ensures ExtractRegionIds(RegionsText(Raised(m)))[0] == RegionsErrorHead
  {
    var lines := Split(RegionsText(Raised(m)), '\n');
    var first := lines[0];
    FirstLineOfRegionsError(m);
    ColonLine(RegionsErrorHead, BeforeFirst(m, '\n'));
    RegionIdsOfLine(first);
    RegionIdsOfConcat([first], lines[1..]);
    assert [first] + lines[1..] == lines;
  }

  lemma FirstLineOfRegionsError(m: string)
    ensures Split(RegionsText(Raised(m)), '\n')[0] == RegionsErrorHead + ": " + BeforeFirst(m, '\n')
  {
    var p := RegionsErrorHead + ": ";
    var text := RegionsText(Raised(m));
    BeforeFirstIsFirstPiece(text, '\n');
    assert '\n' !in p;
    BeforeFirstAppend(p, m, '\n');
  }

  /** A line of the form `id: rest` names the region `id` when `id` is a
      stripped text without a colon. */
  lemma ColonLine(id: string, rest: string)
    requires ':' !in id && Unpadded(id)
    ensures NamesRegion(id + ": " + rest) && RegionIdOf(id + ": " + rest) == id
  {
    var line := id + ": " + rest;
    assert line == id + ([':'] + (" " + rest));
    assert line[|id|] == ':';
    BeforeFirstAppend(id, [':'] + (" " + rest), ':');
    assert BeforeFirst([':'] + (" " + rest), ':') == "";
    StripUnpadded(id);
  }

  /** One cluster of a `DescribeDBClusters` answer, each attribute already
      rendered as text. */
  datatype Cluster = Cluster(dbClusterId: string, dbClusterDescription: string,
                             dbClusterStatus: string, engine: string, dbVersion: string,
                             createTime: string)

  const Separator := "----------------------------------"

  /** The six lines of a rendered cluster, in their fixed order. */
  function ClusterBlockLines(id: string, description: string, status: string,
                             engine: string, version: string, created: string): seq<string>
  {
    ["Cluster ID: " + id, "Description: " + description, "Status: " + status,
     "Engine: " + engine + " " + version, "Created: " + created, Separator]
  }

  function ClusterLines(c: Cluster): seq<string>
  {
    ClusterBlockLines(c.dbClusterId, c.dbClusterDescription, c.dbClusterStatus,
                      c.engine, c.dbVersion, c.createTime)
  }

  /** A listing: each block of lines joined into one entry, the entries joined
      by newlines, as `"\n".join(clusters_info)` does. */
  function ListingText(blocks: seq<seq<string>>): string
  {
    Join(seq(|blocks|, k requires 0 <= k < |blocks| => Join(blocks[k], "\n")), "\n")
  }

  function Concat(blocks: seq<seq<string>>): (r: seq<string>)
  {
    if |blocks| == 0 then [] else blocks[0] + Concat(blocks[1..])
  }

  /** As long as no entry holds a newline, the lines of a listing are the
      lines of its blocks, one after another. */
  lemma {:induction false} ListingLines(blocks: seq<seq<string>>)
    requires |blocks| > 0
    requires forall k :: 0 <= k < |blocks| ==> |blocks[k]| > 0
    requires forall k, j :: 0 <= k < |blocks| && 0 <= j < |blocks[k]| ==> SingleLine(blocks[k][j])
    ensures |Concat(blocks)| > 0
    ensures Split(ListingText(blocks), '\n') == Concat(blocks)
  {
    ConcatJoin(blocks);
    ConcatLines(blocks);
    SplitJoin(Concat(blocks), '\n');
  }

  lemma {:induction false} ConcatLines(blocks: seq<seq<string>>)
    requires forall k, j :: 0 <= k < |blocks| && 0 <= j < |blocks[k]| ==> SingleLine(blocks[k][j])
    ensures forall i :: 0 <= i < |Concat(blocks)| ==> '\n' !in Concat(blocks)[i]
  {
    if |blocks| > 0 {
      ConcatLines(blocks[1..]);
      var c := Concat(blocks);
      forall i | 0 <= i < |c| ensures '\n' !in c[i] {
        if i < |blocks[0]| {
          assert c[i] == blocks[0][i];
        } else {
          assert c[i] == Concat(blocks[1..])[i - |blocks[0]|];
        }
      }
    }
  }

  lemma {:induction false} ConcatJoin(blocks: seq<seq<string>>)
    requires |blocks| > 0
    requires forall k :: 0 <= k < |blocks| ==> |blocks[k]| > 0
    ensures |Concat(blocks)| > 0
    ensures ListingText(blocks) == Join(Concat(blocks), "\n")
  {
    var entries := seq(|blocks|, k requires 0 <= k < |blocks| => Join(blocks[k], "\n"));
    if |blocks| == 1 {
      assert Concat(blocks) == blocks[0] + [];
      assert blocks[0] + [] == blocks[0];
    } else {
      var rest := blocks[1..];
      ConcatJoin(rest);
      assert entries[1..] == seq(|rest|, k requires 0 <= k < |rest| => Join(rest[k], "\n"));
      JoinConcat(blocks[0], Concat(rest), "\n");
    }
  }

  /** The text `get_polardb_clusters` returns for a region; `None` stands for
      a body without an item list. */
  function ClustersText(regionId: string, resp: Fetch<Option<seq<Cluster>>>): string
  {
    match resp
    case NoClient => NoClientText
    case Raised(m) => ClustersErrorPrefix + m
    case Fetched(None) => "No PolarDB clusters found in region " + regionId
    case Fetched(Some(cs)) => ListingText(seq(|cs|, k requires 0 <= k < |cs| => ClusterLines(cs[k])))
  }

  /** `get_polardb_clusters`: one six-line block per cluster, in API order. */
  method GetClusters(regionId: string, resp: Fetch<Option<seq<Cluster>>>) returns (text: string)
    ensures text == ClustersText(regionId, resp)
  {
    match resp {
      case NoClient => text := NoClientText;
      case Raised(m) => text := ClustersErrorPrefix + m;
      case Fetched(None) => text := "No PolarDB clusters found in region " + regionId;
      case Fetched(Some(cs)) =>
        text := RenderListing(seq(|cs|, k requires 0 <= k < |cs| => ClusterLines(cs[k])));
    }
  }

  /** The loop both cluster renderers run: append each rendered block to
      `clusters_info`, then join the list with newlines. */
  method RenderListing(blocks: seq<seq<string>>) returns (text: string)
    ensures text == ListingText(blocks)
  {
    var info: seq<string> := [];
    for i := 0 to |blocks|
      invariant |info| == i
      invariant forall k :: 0 <= k < i ==> info[k] == Join(blocks[k], "\n")
    {
      info := info + [Join(blocks[i], "\n")];
    }
    assert info == seq(|blocks|, k requires 0 <= k < |blocks| => Join(blocks[k], "\n"));
    text := Join(info, "\n");
  }

  predicate SingleLineCluster(c: Cluster)
  {
    SingleLine(c.dbClusterId) && SingleLine(c.dbClusterDescription) && SingleLine(c.dbClusterStatus)
    && SingleLine(c.engine) && SingleLine(c.dbVersion) && SingleLine(c.createTime)
  }

  /** Every cluster of a listing is exactly six lines: id, description, status,
      engine and version, creation time, separator. */
  lemma ClusterListingLines(regionId: string, cs: seq<Cluster>)
    requires |cs| > 0
    requires forall k :: 0 <= k < |cs| ==> SingleLineCluster(cs[k])
    ensures var lines := Split(ClustersText(regionId, Fetched(Some(cs))), '\n');
            |lines| == 6 * |cs|
            && forall k :: 0 <= k < |cs| ==> lines[6 * k..6 * k + 6] == ClusterLines(cs[k])
  {
    var blocks := seq(|cs|, k requires 0 <= k < |cs| => ClusterLines(cs[k]));
    forall k | 0 <= k < |blocks|
      ensures |blocks[k]| == 6 && forall j :: 0 <= j < 6 ==> SingleLine(blocks[k][j])
    {
      var c := cs[k];
      assert blocks[k] == ClusterLines(c);
      ClusterBlockSingleLine(c.dbClusterId, c.dbClusterDescription, c.dbClusterStatus,
                             c.engine, c.dbVersion, c.createTime);
    }
    assert ClustersText(regionId, Fetched(Some(cs))) == ListingText(blocks);
    ListingBlocks(blocks);
    forall k | 0 <= k < |cs| ensures blocks[k] == ClusterLines(cs[k]) { }
  }

  /** A block whose six values are single lines is six single lines. */
  lemma ClusterBlockSingleLine(id: string, description: string, status: string,
                               engine: string, version: string, created: string)
    requires SingleLine(id) && SingleLine(description) && SingleLine(status)
    requires SingleLine(engine) && SingleLine(version) && SingleLine(created)
    ensures |ClusterBlockLines(id, description, status, engine, version, created)| == 6
    ensures forall j :: 0 <= j < 6 ==> SingleLine(ClusterBlockLines(id, description, status, engine, version, created)[j])
  {
    assert SingleLine("Cluster ID: ") && SingleLine("Description: ") && SingleLine("Status: ");
    assert SingleLine("Engine: ") && SingleLine(" ") && SingleLine("Created: ") && SingleLine(Separator);
  }

  /** A listing of six-line blocks splits into six lines per block. */
  lemma ListingBlocks(blocks: seq<seq<string>>)
    requires |blocks| > 0
    requires forall k :: 0 <= k < |blocks| ==> |blocks[k]| == 6 && forall j :: 0 <= j < 6 ==> SingleLine(blocks[k][j])
    ensures |Split(ListingText(blocks), '\n')| == 6 * |blocks|
    ensures forall k :: 0 <= k < |blocks| ==> Split(ListingText(blocks), '\n')[6 * k..6 * k + 6] == blocks[k]
  {
    ListingLines(blocks);
    ConcatSix(blocks);
  }

  lemma {:induction false} ConcatSix(blocks: seq<seq<string>>)
    requires forall k :: 0 <= k < |blocks| ==> |blocks[k]| == 6
    ensures |Concat(blocks)| == 6 * |blocks|
    ensures forall k :: 0 <= k < |blocks| ==> Concat(blocks)[6 * k..6 * k + 6] == blocks[k]
  {
    if |blocks| > 0 {
      var rest := blocks[1..];
      ConcatSix(rest);
      var c := Concat(blocks);
      assert c == blocks[0] + Concat(rest);
      forall k | 0 <= k < |blocks| ensures c[6 * k..6 * k + 6] == blocks[k] {
        if k == 0 {
          assert c[..6] == blocks[0];
        } else {
          assert c[6 * k..6 * k + 6] == Concat(rest)[6 * (k - 1)..6 * (k - 1) + 6];
        }
      }
    }
  }

  const NoClustersPhrase := "No PolarDB clusters found"

  /** A region's listing is kept by the aggregator when it is non-empty and
      does not carry the "no clusters" phrase. */
  predicate Contributes(listing: string)
  {
    listing != "" && !Contains(listing, NoClustersPhrase)
  }

  function Header(regionId: string): string
  {
    "=== Region: " + regionId + " ==="
  }

  /** The `all_clusters` list: a header and the listing of each contributing region. */
  function AggregateLines(ids: seq<string>, listing: string -> string): seq<string>
  {
    if |ids| == 0 then []
    else
      var last := ids[|ids| - 1];
      AggregateLines(ids[..|ids| - 1], listing)
       + (if Contributes(listing(last)) then [Header(last), listing(last)] else [])
  }

  /** What one region adds to the aggregate: its header and listing when the
      listing contributes, and nothing otherwise. */
  lemma AggregateOne(id: string, listing: string -> string)
    ensures AggregateLines([id], listing)
            == if Contributes(listing(id)) then [Header(id), listing(id)] else []
  {
    assert [id][..0] == [];
  }

  /** Aggregating two runs of regions is aggregating each and concatenating:
      the output keeps the region order and each region's part depends only
      on that region's listing. */
  lemma {:induction false} AggregateConcat(xs: seq<string>, ys: seq<string>, listing: string -> string)
    ensures AggregateLines(xs + ys, listing) == AggregateLines(xs, listing) + AggregateLines(ys, listing)
  {
    if |ys| == 0 {
      assert xs + ys == xs;
    } else {
      var ys' := ys[..|ys| - 1];
      AggregateConcat(xs, ys', listing);
      assert (xs + ys)[..|xs + ys| - 1] == xs + ys';
    }
  }

  /** Nothing is aggregated exactly when no region contributes. */
  lemma {:induction false} AggregateEmpty(ids: seq<string>, listing: string -> string)
    ensures AggregateLines(ids, listing) == []
            <==> forall k :: 0 <= k < |ids| ==> !Contributes(listing(ids[k]))
  {
    if |ids| > 0 {
      AggregateEmpty(ids[..|ids| - 1], listing);
      assert forall k :: 0 <= k < |ids| - 1 ==> ids[..|ids| - 1][k] == ids[k];
    }
  }

  /** The failure texts hold no capital N, the first letter of the
      "no clusters" phrase. */
  lemma NoClientLacksN()
    ensures 'N' !in NoClientText
  {
    var a, b, c := "Failed to create ", "PolarDB client. ", "Please check your credentials.";
    assert forall i :: 0 <= i < |a| ==> a[i] != 'N';
    assert forall i :: 0 <= i < |b| ==> b[i] != 'N';
    assert forall i :: 0 <= i < |c| ==> c[i] != 'N';
  }

  lemma RaisedPrefixLacksN()
    ensures 'N' !in ClustersErrorPrefix
  {
    assert forall i :: 0 <= i < |ClustersErrorPrefix| ==> ClustersErrorPrefix[i] != 'N';
  }

  /** A region whose client cannot be created, or whose call raises with a
      message free of the "no clusters" phrase, is kept: its header and the
      error text appear in the aggregate. */
  lemma FailedRegionKept(id: string, clusters: string -> Fetch<Option<seq<Cluster>>>)
    requires clusters(id).NoClient?
             || (clusters(id).Raised? && !Contains(clusters(id).message, NoClustersPhrase))
    ensures AggregateLines([id], x => ClustersText(x, clusters(x)))
            == [Header(id), ClustersText(id, clusters(id))]
  {
    var listing := x => ClustersText(x, clusters(x));
    assert NoClustersPhrase[0] == 'N';
    if clusters(id).NoClient? {
      NoClientLacksN();
      ContainsPastPrefix(NoClientText, "", NoClustersPhrase);
      assert NoClientText + "" == NoClientText;
      assert !Contains("", NoClustersPhrase);
    } else {
      RaisedPrefixLacksN();
      ContainsPastPrefix(ClustersErrorPrefix, clusters(id).message, NoClustersPhrase);
    }
    assert Contributes(listing(id));
    AggregateOne(id, listing);
  }

  function AggregateText(ids: seq<string>, listing: string -> string): string
  {
    if |ids| == 0 then "No regions found"
    else
      var lines := AggregateLines(ids, listing);
      if |lines| == 0 then "No PolarDB clusters found across all regions" else Join(lines, "\n")
  }

  /** The three outcomes of the aggregation: no region id, no contributing
      region, or the headed listings of the contributing regions. */
  lemma AggregateOutcome(ids: seq<string>, listing: string -> string)
    ensures |ids| == 0 ==> AggregateText(ids, listing) == "No regions found"
    ensures |ids| > 0 && (forall k :: 0 <= k < |ids| ==> !Contributes(listing(ids[k])))
            ==> AggregateText(ids, listing) == "No PolarDB clusters found across all regions"
    ensures (exists k :: 0 <= k < |ids| && Contributes(listing(ids[k])))
            ==> AggregateText(ids, listing) == Join(AggregateLines(ids, listing), "\n")
  {
    AggregateEmpty(ids, listing);
  }

  /** The text `get_all_polardb_clusters` returns, the regions answer and the
      per-region cluster answers given. */
  function AllClustersText(regions: Fetch<Option<seq<Region>>>,
                           clusters: string -> Fetch<Option<seq<Cluster>>>): string
  {
    AggregateText(ExtractRegionIds(RegionsText(regions)), id => ClustersText(id, clusters(id)))
  }

  /** `get_all_polardb_clusters`: list the regions, take their ids, then list
      the clusters of each region in turn and keep every region whose listing
      is non-empty and lacks "No PolarDB clusters found", including regions
      whose call failed. */
  method GetAllClusters(regions: Fetch<Option<seq<Region>>>,
                        clusters: string -> Fetch<Option<seq<Cluster>>>) returns (text: string)
    ensures text == AllClustersText(regions, clusters)
  {
    var regionsText := GetRegions(regions);
    var ids := CollectRegionIds(regionsText);
    if |ids| == 0 {
      return "No regions found";
    }
    var all := AggregateRegions(ids, clusters);
    if |all| == 0 {
      return "No PolarDB clusters found across all regions";
    }
    text := Join(all, "\n");
  }

  /** The second loop of `get_all_polardb_clusters`. */
  method AggregateRegions(ids: seq<string>, clusters: string -> Fetch<Option<seq<Cluster>>>)
    returns (all: seq<string>)
    ensures all == AggregateLines(ids, id => ClustersText(id, clusters(id)))
  {
    ghost var listing := id => ClustersText(id, clusters(id));
    all := [];
    for i := 0 to |ids|
      invariant all == AggregateLines(ids[..i], listing)
    {
      var c := GetClusters(ids[i], clusters(ids[i]));
      assert c == listing(ids[i]);
      AggregateSnoc(ids, i, listing);
      if c != "" && !Contains(c, NoClustersPhrase) {
        all := all + [Header(ids[i]), c];
      }
    }
    assert ids[..|ids|] == ids;
  }

  lemma AggregateSnoc(ids: seq<string>, i: nat, listing: string -> string)
    requires i < |ids|
    ensures AggregateLines(ids[..i + 1], listing)
            == AggregateLines(ids[..i], listing)
               + (if Contributes(listing(ids[i])) then [Header(ids[i]), listing(ids[i])] else [])
  {
    assert ids[..i + 1][..i] == ids[..i];
  }

  /** A region is reported as having no clusters, and dropped from the
      aggregate, whenever one of its clusters carries "No PolarDB clusters
      found" in its description. */
  lemma DescriptionHidesRegion(regionId: string, cs: seq<Cluster>, k: nat)
    requires k < |cs| && Contains(cs[k].dbClusterDescription, NoClustersPhrase)
    ensures !Contributes(ClustersText(regionId, Fetched(Some(cs))))
  {
    var blocks := seq(|cs|, j requires 0 <= j < |cs| => ClusterLines(cs[j]));
    var entries := seq(|blocks|, j requires 0 <= j < |blocks| => Join(blocks[j], "\n"));
    var c := cs[k];
    var lines := ClusterLines(c);
    var d := c.dbClusterDescription;
    var pre := lines[0] + "\n" + "Description: ";
    var post := "\n" + Join(lines[2..], "\n");
    assert Join(lines, "\n") == pre + d + post by {
      assert Join(lines, "\n") == lines[0] + "\n" + Join(lines[1..], "\n");
      assert lines[1..][0] == lines[1] == "Description: " + d;
      assert Join(lines[1..], "\n") == lines[1] + "\n" + Join(lines[2..], "\n");
    }
    ContainsWithin(pre, d, post, NoClustersPhrase);
    assert entries[k] == Join(lines, "\n");
    JoinWithin(entries, k);
    var before, after :| Join(entries, "\n") == before + entries[k] + after;
    ContainsWithin(before, entries[k], after, NoClustersPhrase);
  }

  /** Every entry of a join stands between some prefix and some suffix. */
  lemma {:induction false} JoinWithin(entries: seq<string>, k: nat)
    requires k < |entries|
    ensures exists before, after :: Join(entries, "\n") == before + entries[k] + after
  {
    if |entries| == 1 {
      assert Join(entries, "\n") == "" + entries[0] + "";
    } else if k == 0 {
      assert Join(entries, "\n") == "" + entries[0] + ("\n" + Join(entries[1..], "\n"));
    } else {
      JoinWithin(entries[1..], k - 1);
      var b, a :| Join(entries[1..], "\n") == b + entries[1..][k - 1] + a;
      assert Join(entries, "\n") == (entries[0] + "\n" + b) + entries[k] + a;
    }
  }

  /** `read_resource` of the cloud server: resolve, then produce the listing. */
  method ReadResource(uri: string, regions: Fetch<Option<seq<Region>>>,
                      clusters: string -> Fetch<Option<seq<Cluster>>>)
    returns (r: Result<string, UriError>)
    ensures Resolve(uri).Failure? ==> r == Failure(Resolve(uri).error)
    ensures Resolve(uri) == Success(RegionList) ==> r == Success(RegionsText(regions))
    ensures Resolve(uri) == Success(AllClusters) ==> r == Success(AllClustersText(regions, clusters))
    ensures forall region :: Resolve(uri) == Success(RegionClusters(region))
              ==> r == Success(ClustersText(region, clusters(region)))
  {
    var resolved := Resolve(uri);
    match resolved {
      case Failure(e) => r := Failure(e);
      case Success(RegionList) =>
        var text := GetRegions(regions);
        r := Success(text);
      case Success(AllClusters) =>
        var text := GetAllClusters(regions, clusters);
        r := Success(text);
      case Success(RegionClusters(region)) =>
        var text := GetClusters(region, clusters(region));
        r := Success(text);
    }
  }
}
