/**
 * The join and report loop of `main`: for every asset line whose id is in the
 * CMDB map and whose `a_s_i` key is in the deployment map, one line
 * `cmdb_id:env:a:s:i:hosts` per environment under that key, in asset-file
 * order and, within an asset, in the order the environments were first seen.
 * The hosts of a line are joined by `,` in set-iteration order, which Python
 * leaves unspecified; the model allows any order.
 */
module Report {
  import opened Wrappers
  import opened Text
  import opened Cmdb
  import opened Assets
  import opened Deployments

  /** One report line before formatting. */
  datatype ReportLine = ReportLine(cmdbId: string, env: string, a: string, s: string, i: string,
                                   hosts: set<string>)

  /** `not asset.strip() and asset.startswith('#')`: the skip test as written. */
  predicate SkipGuard(line: string) {
    Strip(line) == [] && StartsWithHash(line)
  }

  /**
   * The skip test never holds: a line starting with `#` is not blank. Blank
   * asset lines are dropped by SplitAssetMap instead, and `#` lines go on to
   * be parsed like any other line.
   */
  lemma SkipGuardNeverHolds(line: string)
    ensures !SkipGuard(line)
  {
    if StartsWithHash(line) {
      assert !IsSpace(line[0]);
    }
  }

  /** One report line per environment of a group, in the group's order. */
  function GroupLines(cmdbId: string, a: string, s: string, i: string, g: Group): seq<ReportLine> {
    seq(|g.envs|, k requires 0 <= k < |g.envs| =>
      ReportLine(cmdbId, g.envs[k], a, s, i, HostsIn(g, g.envs[k])))
  }

  /** The report lines produced by one asset line. */
  function AssetReport(line: string, cmdb: EonMap, deploy: DeploymentMap): seq<ReportLine> {
    if SkipGuard(line) then []
    else match SplitAssetMap(line)
      case None => []
      case Some(asset) =>
        if asset.id !in cmdb then []
        else
          var key := Key(asset.a, asset.s, asset.i);
          if key !in deploy then []
          else GroupLines(cmdb[asset.id], asset.a, asset.s, asset.i, deploy[key])
  }

  /** The report lines of each asset line, one entry per line of the file. */
  function Reports(assets: seq<string>, cmdb: EonMap, deploy: DeploymentMap): seq<seq<ReportLine>> {
    seq(|assets|, k requires 0 <= k < |assets| => AssetReport(assets[k], cmdb, deploy))
  }

  /** The concatenation of a sequence of report-line blocks, in order. */
  function Concat(parts: seq<seq<ReportLine>>): seq<ReportLine>
    decreases |parts|
  {
    if parts == [] then [] else Concat(parts[..|parts| - 1]) + parts[|parts| - 1]
  }

  /** The report lines of all asset lines, in file order. */
  function ReportSpec(assets: seq<string>, cmdb: EonMap, deploy: DeploymentMap): seq<ReportLine> {
    Concat(Reports(assets, cmdb, deploy))
  }

  /** `f'{cmdb_id}:{value}:{a}:{s}:{i}:{",".join(hosts)}\n'` for one host order. */
  function FormatLine(l: ReportLine, order: seq<string>): (t: string)
    ensures |t| > |l.cmdbId| && t[..|l.cmdbId|] == l.cmdbId && t[|l.cmdbId|] == ':'
    ensures t[|t| - 1] == '\n'
  {
    l.cmdbId + ":" + l.env + ":" + l.a + ":" + l.s + ":" + l.i + ":" + Join(order, ',') + "\n"
  }

  /** `order` lists every element of `hosts` exactly once. */
  ghost predicate Enumerates(order: seq<string>, hosts: set<string>) {
    Distinct(order) && (forall h :: h in order <==> h in hosts)
  }

  /** Each line's host order enumerates that line's hosts. */
  ghost predicate AllEnumerate(orders: seq<seq<string>>, lines: seq<ReportLine>) {
    |orders| == |lines| && forall k :: 0 <= k < |lines| ==> Enumerates(orders[k], lines[k].hosts)
  }

  lemma AllEnumerateAppend(o1: seq<seq<string>>, l1: seq<ReportLine>, o2: seq<seq<string>>, l2: seq<ReportLine>)
    requires AllEnumerate(o1, l1) && AllEnumerate(o2, l2)
    ensures AllEnumerate(o1 + o2, l1 + l2)
  {
    forall k | 0 <= k < |l1 + l2| ensures Enumerates((o1 + o2)[k], (l1 + l2)[k].hosts) {
      if k < |l1| {
        assert (o1 + o2)[k] == o1[k] && (l1 + l2)[k] == l1[k];
      } else {
        assert (o1 + o2)[k] == o2[k - |l1|] && (l1 + l2)[k] == l2[k - |l1|];
      }
    }
  }

  /** The report text: the formatted lines, each with its own host order, concatenated. */
  function Render(lines: seq<ReportLine>, orders: seq<seq<string>>): string
    requires |orders| == |lines|
    decreases |lines|
  {
    if lines == [] then ""
    else Render(lines[..|lines| - 1], orders[..|orders| - 1]) + FormatLine(lines[|lines| - 1], orders[|orders| - 1])
  }

  /** `list(hosts)`: the elements of a set, in an order the model leaves open. */
  method ListHosts(hosts: set<string>) returns (order: seq<string>)
    ensures Enumerates(order, hosts)
  {
    order := [];
    var rest := hosts;
    while rest != {}
      invariant rest <= hosts
      invariant Distinct(order)
      invariant forall h :: h in order ==> h !in rest
      invariant forall h :: h in hosts <==> h in order || h in rest
      decreases rest
    {
      var h :| h in rest;
      order := order + [h];
      rest := rest - {h};
    }
  }

  lemma RenderSnoc(lines: seq<ReportLine>, orders: seq<seq<string>>, l: ReportLine, o: seq<string>)
    requires |orders| == |lines|
    ensures Render(lines + [l], orders + [o]) == Render(lines, orders) + FormatLine(l, o)
  {
    assert (lines + [l])[..|lines|] == lines;
    assert (orders + [o])[..|orders|] == orders;
  }

  /** Rendering a concatenation renders each part. */
  lemma {:induction false} RenderAppend(l1: seq<ReportLine>, o1: seq<seq<string>>, l2: seq<ReportLine>, o2: seq<seq<string>>)
    requires |o1| == |l1| && |o2| == |l2|
    ensures Render(l1 + l2, o1 + o2) == Render(l1, o1) + Render(l2, o2)
    decreases |l2|
  {
    if l2 == [] {
      assert l1 + l2 == l1;
      assert o1 + o2 == o1;
    } else {
      var li, oi := l2[..|l2| - 1], o2[..|o2| - 1];
      var ll, ol := l2[|l2| - 1], o2[|o2| - 1];
      assert l2 == li + [ll] && o2 == oi + [ol];
      assert l1 + l2 == (l1 + li) + [ll];
      assert o1 + o2 == (o1 + oi) + [ol];
      calc {
        Render(l1 + l2, o1 + o2);
        { RenderSnoc(l1 + li, o1 + oi, ll, ol); }
        Render(l1 + li, o1 + oi) + FormatLine(ll, ol);
        { RenderAppend(l1, o1, li, oi); }
        (Render(l1, o1) + Render(li, oi)) + FormatLine(ll, ol);
        Render(l1, o1) + (Render(li, oi) + FormatLine(ll, ol));
        { RenderSnoc(li, oi, ll, ol); }
        Render(l1, o1) + Render(l2, o2);
      }
    }
  }

  /** The inner loop of `main`: one formatted line per environment of the matched group. */
  method GroupOutput(cmdbId: string, a: string, s: string, i: string, g: Group)
    returns (text: string, orders: seq<seq<string>>)
    ensures AllEnumerate(orders, GroupLines(cmdbId, a, s, i, g))
    ensures text == Render(GroupLines(cmdbId, a, s, i, g), orders)
  {
    text, orders := "", [];
    ghost var added: seq<ReportLine> := GroupLines(cmdbId, a, s, i, g);
    for j := 0 to |g.envs|
      invariant AllEnumerate(orders, added[..j])
      invariant text == Render(added[..j], orders)
    {
      var env := g.envs[j];
      var hosts := HostsIn(g, env);
      var order := ListHosts(hosts);
      var line := ReportLine(cmdbId, env, a, s, i, hosts);
      assert line == added[j];
      assert added[..j + 1] == added[..j] + [line];
      RenderSnoc(added[..j], orders, line, order);
      AllEnumerateAppend(orders, added[..j], [order], [line]);
      text := text + FormatLine(line, order);
      orders := orders + [order];
    }
    assert added[..|g.envs|] == added;
  }

  /** The body of the loop of `main` for one asset line. */
  method AssetOutput(asset: string, cmdb: EonMap, deploy: DeploymentMap)
    returns (text: string, orders: seq<seq<string>>)
    ensures AllEnumerate(orders, AssetReport(asset, cmdb, deploy))
    ensures text == Render(AssetReport(asset, cmdb, deploy), orders)
  {
    text, orders := "", [];
    if Strip(asset) == [] && StartsWithHash(asset) {
      return;
    }
    var parsed := SplitAssetMap(asset);
    if parsed.None? {
      return;
    }
    var Asset(id, a, s, i) := parsed.value;
    if id !in cmdb {
      return;
    }
    var cmdbId := cmdb[id];
    var key := Key(a, s, i);
    if key in deploy {
      text, orders := GroupOutput(cmdbId, a, s, i, deploy[key]);
    }
  }

  /** Appending one more block of report lines and its text keeps the output equal to the rendering. */
  lemma GenerateStep(blocks: seq<seq<ReportLine>>, added: seq<ReportLine>,
                     output: string, orders: seq<seq<string>>, text: string, more: seq<seq<string>>)
    requires AllEnumerate(orders, Concat(blocks)) && output == Render(Concat(blocks), orders)
    requires AllEnumerate(more, added) && text == Render(added, more)
    ensures AllEnumerate(orders + more, Concat(blocks + [added]))
    ensures output + text == Render(Concat(blocks + [added]), orders + more)
  {
    ConcatSnoc(blocks, added);
    RenderAppend(Concat(blocks), orders, added, more);
    AllEnumerateAppend(orders, Concat(blocks), more, added);
  }

  /** The loop of `main` that builds the output text. */
  method GenerateReport(assets: seq<string>, cmdb: EonMap, deploy: DeploymentMap)
    returns (output: string, orders: seq<seq<string>>)
    ensures AllEnumerate(orders, ReportSpec(assets, cmdb, deploy))
    ensures output == Render(ReportSpec(assets, cmdb, deploy), orders)
  {
    output := "";
    orders := [];
    ghost var blocks: seq<seq<ReportLine>> := [];
    for n := 0 to |assets|
      invariant |blocks| == n
      invariant forall k :: 0 <= k < n ==> blocks[k] == AssetReport(assets[k], cmdb, deploy)
      invariant AllEnumerate(orders, Concat(blocks))
      invariant output == Render(Concat(blocks), orders)
    {
      var text, more := AssetOutput(assets[n], cmdb, deploy);
      GenerateStep(blocks, AssetReport(assets[n], cmdb, deploy), output, orders, text, more);
      blocks := blocks + [AssetReport(assets[n], cmdb, deploy)];
      output := output + text;
      orders := orders + more;
    }
    assert blocks == Reports(assets, cmdb, deploy);
  }

  /** The whole run: load the CMDB map, build the deployment map, join. */
  method Run(assetLines: seq<string>, deploymentLines: seq<string>, cmdbLines: seq<string>)
    returns (r: Result<string, LoadError>, orders: seq<seq<string>>)
    ensures LoadSpec(cmdbLines).Failure? ==> r == Failure(LoadSpec(cmdbLines).error)
    ensures LoadSpec(cmdbLines).Success? ==>
              var lines := ReportSpec(assetLines, LoadSpec(cmdbLines).value, BuildSpec(deploymentLines));
              && AllEnumerate(orders, lines)
              && r == Success(Render(lines, orders))
  {
    orders := [];
    var cmdb := SplitCmdbEonMap(cmdbLines);
    if cmdb.Failure? {
      return Failure(cmdb.error), orders;
    }
    var deploy := ProcessDeploymentFile(deploymentLines);
    var output;
    output, orders := GenerateReport(assetLines, cmdb.value, deploy);
    r := Success(output);
  }

  lemma ConcatSnoc(parts: seq<seq<ReportLine>>, p: seq<ReportLine>)
    ensures Concat(parts + [p]) == Concat(parts) + p
  {
    assert (parts + [p])[..|parts|] == parts;
  }

  lemma {:induction false} ConcatAppend(p1: seq<seq<ReportLine>>, p2: seq<seq<ReportLine>>)
    ensures Concat(p1 + p2) == Concat(p1) + Concat(p2)
    decreases |p2|
  {
    if p2 == [] {
      assert p1 + p2 == p1;
    } else {
      var init, last := p2[..|p2| - 1], p2[|p2| - 1];
      assert p2 == init + [last];
      assert p1 + p2 == (p1 + init) + [last];
      ConcatAppend(p1, init);
      ConcatSnoc(p1 + init, last);
      ConcatSnoc(init, last);
    }
  }

  /** A file of one asset line reports that line's lines. */
  lemma ReportSingle(line: string, cmdb: EonMap, deploy: DeploymentMap)
    ensures ReportSpec([line], cmdb, deploy) == AssetReport(line, cmdb, deploy)
  {
    var none: seq<string> := [];
    assert none + [line] == [line];
    assert Reports(none, cmdb, deploy) == [];
    ReportSnoc(none, line, cmdb, deploy);
  }

  /** Report lines come out in asset-file order: the report of a concatenation is the concatenation of the reports. */
  lemma ReportAppend(a1: seq<string>, a2: seq<string>, cmdb: EonMap, deploy: DeploymentMap)
    ensures ReportSpec(a1 + a2, cmdb, deploy) == ReportSpec(a1, cmdb, deploy) + ReportSpec(a2, cmdb, deploy)
  {
    ReportsAppend(a1, a2, cmdb, deploy);
    ConcatAppend(Reports(a1, cmdb, deploy), Reports(a2, cmdb, deploy));
  }
  /** The per-asset blocks of two lists of assets, one after the other. */
  lemma ReportsAppend(a1: seq<string>, a2: seq<string>, cmdb: EonMap, deploy: DeploymentMap)
    ensures Reports(a1 + a2, cmdb, deploy) == Reports(a1, cmdb, deploy) + Reports(a2, cmdb, deploy)
  {
    var all := a1 + a2;
    var r, r1, r2 := Reports(all, cmdb, deploy), Reports(a1, cmdb, deploy), Reports(a2, cmdb, deploy);
    assert |r| == |all| && |r1| == |a1| && |r2| == |a2|;
    forall k | 0 <= k < |all| ensures r[k] == (r1 + r2)[k] {
      assert r[k] == AssetReport(all[k], cmdb, deploy);
      if k < |a1| {
        assert all[k] == a1[k];
        assert r1[k] == AssetReport(a1[k], cmdb, deploy);
      } else {
        assert all[k] == a2[k - |a1|];
        assert r2[k - |a1|] == AssetReport(a2[k - |a1|], cmdb, deploy);
      }
    }
  }
  lemma ReportSnoc(assets: seq<string>, line: string, cmdb: EonMap, deploy: DeploymentMap)
    ensures ReportSpec(assets + [line], cmdb, deploy)
         == ReportSpec(assets, cmdb, deploy) + AssetReport(line, cmdb, deploy)
  {
    var all := assets + [line];
    var r := Reports(assets, cmdb, deploy);
    var tail := AssetReport(line, cmdb, deploy);
    forall k | 0 <= k < |all| ensures Reports(all, cmdb, deploy)[k] == (r + [tail])[k] {
      if k < |assets| {
        assert all[k] == assets[k];
      } else {
        assert all[k] == line;
      }
    }
    assert Reports(all, cmdb, deploy) == r + [tail];
    ConcatSnoc(r, tail);
  }

  /** The asset line parses, its id is in the CMDB map and its key is in the deployment map. */
  predicate Matched(line: string, cmdb: EonMap, deploy: DeploymentMap) {
    match SplitAssetMap(line)
    case None => false
    case Some(asset) => asset.id in cmdb && Key(asset.a, asset.s, asset.i) in deploy
  }

  /**
   * Over a built deployment map, an asset line adds output exactly when it is
   * matched: a line that does not parse (a blank line among them), an id
   * missing from the CMDB map or a key missing from the deployment map adds
   * nothing; a `#` line is not treated differently.
   */
  lemma AssetReportEmpty(line: string, cmdb: EonMap, deploymentLines: seq<string>)
    ensures AssetReport(line, cmdb, BuildSpec(deploymentLines)) == []
            <==> !Matched(line, cmdb, BuildSpec(deploymentLines))
  {
    SkipGuardNeverHolds(line);
    BuildValid(deploymentLines);
  }

  /** A matched asset line gives one report line per environment of its group, in group order. */
  lemma MatchedShape(line: string, cmdb: EonMap, deploy: DeploymentMap)
    requires Matched(line, cmdb, deploy)
    ensures var asset := SplitAssetMap(line).value;
            var g := deploy[Key(asset.a, asset.s, asset.i)];
            var out := AssetReport(line, cmdb, deploy);
            && |out| == |g.envs|
            && forall k :: 0 <= k < |out| ==>
                 out[k] == ReportLine(cmdb[asset.id], g.envs[k], asset.a, asset.s, asset.i,
                                      HostsIn(g, g.envs[k]))
  {
    SkipGuardNeverHolds(line);
  }

  /**
   * The lines of a matched asset, over any deployment map whose group for the
   * asset's key lists the environments `envs` once each and holds `hostsOf`.
   */
  lemma MatchedLinesOver(line: string, cmdb: EonMap, d: DeploymentMap, lines: seq<string>)
    requires Matched(line, cmdb, d)
    requires var asset := SplitAssetMap(line).value;
             var key := Key(asset.a, asset.s, asset.i);
             && ValidGroup(d[key])
             && (forall e :: e in d[key].envs ==> e in EnvsFromLines(lines, key))
             && (forall e :: Hosts(d, key, e) == HostsFromLines(lines, key, e))
    ensures var asset := SplitAssetMap(line).value;
            var key := Key(asset.a, asset.s, asset.i);
            var out := AssetReport(line, cmdb, d);
            && |out| == |d[key].envs|
            && (forall k :: 0 <= k < |out| ==>
                  && out[k].cmdbId == cmdb[asset.id]
                  && out[k].a == asset.a && out[k].s == asset.s && out[k].i == asset.i
                  && out[k].env in EnvsFromLines(lines, key)
                  && out[k].hosts == HostsFromLines(lines, key, out[k].env)
                  && out[k].hosts != {})
            && (forall j, k :: 0 <= j < k < |out| ==> out[j].env != out[k].env)
  {
    var asset := SplitAssetMap(line).value;
    var key := Key(asset.a, asset.s, asset.i);
    var g := d[key];
    var out := AssetReport(line, cmdb, d);
    MatchedShape(line, cmdb, d);
    forall k | 0 <= k < |out|
      ensures out[k].env == g.envs[k] && out[k].env in EnvsFromLines(lines, key)
      ensures out[k].hosts == HostsFromLines(lines, key, out[k].env)
      ensures out[k].hosts != {}
    {
      assert g.envs[k] in g.envs;
      assert Hosts(d, key, g.envs[k]) == HostsIn(g, g.envs[k]);
    }
    forall j, k | 0 <= j < k < |out| ensures out[j].env != out[k].env {
      assert out[j].env == g.envs[j] && out[k].env == g.envs[k];
    }
  }

  /**
   * A matched asset adds exactly one line per distinct environment of the
   * accepted deployment lines under its key. Each line carries the asset's
   * EON id and fields, a different environment, and the (non-empty) union of
   * the hosts deployed for that key and environment.
   */
  lemma MatchedAssetLines(line: string, cmdb: EonMap, deploymentLines: seq<string>)
    requires Matched(line, cmdb, BuildSpec(deploymentLines))
    ensures var asset := SplitAssetMap(line).value;
            var key := Key(asset.a, asset.s, asset.i);
            var out := AssetReport(line, cmdb, BuildSpec(deploymentLines));
            && |out| == |EnvsFromLines(deploymentLines, key)|
            && (forall k :: 0 <= k < |out| ==>
                  && out[k].cmdbId == cmdb[asset.id]
                  && out[k].a == asset.a && out[k].s == asset.s && out[k].i == asset.i
                  && out[k].env in EnvsFromLines(deploymentLines, key)
                  && out[k].hosts == HostsFromLines(deploymentLines, key, out[k].env)
                  && out[k].hosts != {})
            && (forall j, k :: 0 <= j < k < |out| ==> out[j].env != out[k].env)
  {
    var d := BuildSpec(deploymentLines);
    var asset := SplitAssetMap(line).value;
    var key := Key(asset.a, asset.s, asset.i);
    BuildValid(deploymentLines);
    BuildEnvs(deploymentLines, key);
    BuildEnvCount(deploymentLines, key);
    forall e ensures Hosts(d, key, e) == HostsFromLines(deploymentLines, key, e) {
      BuildHosts(deploymentLines, key, e);
    }
    MatchedLinesOver(line, cmdb, d, deploymentLines);
  }

  /**
   * Within one asset, report lines follow the environments of its key in the
   * order of their first accepted deployment line.
   */
  lemma MatchedEnvOrder(line: string, cmdb: EonMap, deploymentLines: seq<string>)
    requires Matched(line, cmdb, BuildSpec(deploymentLines))
    ensures var asset := SplitAssetMap(line).value;
            var key := Key(asset.a, asset.s, asset.i);
            var out := AssetReport(line, cmdb, BuildSpec(deploymentLines));
            && |out| == |FirstEnvs(deploymentLines, key)|
            && forall k :: 0 <= k < |out| ==> out[k].env == FirstEnvs(deploymentLines, key)[k]
  {
    var asset := SplitAssetMap(line).value;
    MatchedShape(line, cmdb, BuildSpec(deploymentLines));
    BuildEnvOrder(deploymentLines, Key(asset.a, asset.s, asset.i));
  }

  /** No field of the line and none of its hosts contains a newline. */
  predicate NewlineFree(l: ReportLine) {
    && '\n' !in l.cmdbId && '\n' !in l.env && '\n' !in l.a && '\n' !in l.s && '\n' !in l.i
    && forall h :: h in l.hosts ==> '\n' !in h
  }

  /** A formatted line holds one newline, its last character, when its fields hold none. */
  lemma FormatLineNewlines(l: ReportLine, order: seq<string>)
    requires NewlineFree(l) && Enumerates(order, l.hosts)
    ensures Count(FormatLine(l, order), '\n') == 1
    ensures FormatLine(l, order)[|FormatLine(l, order)| - 1] == '\n'
  {
    var head := l.cmdbId + ":" + l.env + ":" + l.a + ":" + l.s + ":" + l.i + ":" + Join(order, ',');
    forall k | 0 <= k < |order| ensures '\n' !in order[k] {
      assert order[k] in l.hosts;
    }
    JoinExcludes(order, ',', '\n');
    assert '\n' !in head;
    assert FormatLine(l, order) == head + "\n";
    CountAppend(head, "\n", '\n');
  }

  /**
   * One output line per report line: when no field or host holds a newline,
   * the text has exactly as many newlines as there are report lines.
   */
  lemma {:induction false} RenderNewlines(lines: seq<ReportLine>, orders: seq<seq<string>>)
    requires AllEnumerate(orders, lines)
    requires forall k :: 0 <= k < |lines| ==> NewlineFree(lines[k])
    ensures Count(Render(lines, orders), '\n') == |lines|
    decreases |lines|
  {
    if lines != [] {
      var li, oi := lines[..|lines| - 1], orders[..|orders| - 1];
      var l, o := lines[|lines| - 1], orders[|orders| - 1];
      assert AllEnumerate(oi, li) by {
        forall k | 0 <= k < |li| ensures Enumerates(oi[k], li[k].hosts) {
          assert oi[k] == orders[k] && li[k] == lines[k];
        }
      }
      RenderNewlines(li, oi);
      FormatLineNewlines(l, o);
      CountAppend(Render(li, oi), FormatLine(l, o), '\n');
    }
  }

  /** A CMDB file of one record `id:eon`. */
  lemma SingleCmdbRecord(id: string, eon: string)
    requires ':' !in id && ':' !in eon
    requires id != [] && !IsSpace(id[0]) && id[0] != '#'
    ensures LoadSpec([Join([id, eon], ':')]) == Success(map[id := Strip(eon)])
  {
    var c := Join([id, eon], ':');
    var cs: seq<string> := [c];
    JoinEnds([id, eon], ':');
    JoinCons(id, [eon], ':');
    EntryIgnoresExtraFields(id, eon, "");
    assert c[0] == id[0];
    assert IsRecord(c);
    assert cs[..0] == [];
  }

  /** Two deployments of one key and environment give one group holding both hosts. */
  lemma TwoHostsOneGroup(env: string, a: string, s: string, i: string, h1: string,
                         a2: string, s2: string, i2: string, h2: string)
    requires ':' !in env && ':' !in a && ':' !in s && ':' !in i && ':' !in h1
    requires ':' !in a2 && ':' !in s2 && ':' !in i2 && ':' !in h2
    requires env != [] && !IsSpace(env[0]) && env[0] != '#'
    requires Key(a2, s2, i2) == Key(a, s, i)
    ensures BuildSpec([Join([env, a, s, i, h1], ':'), Join([env, a2, s2, i2, h2], ':')])
            == map[Key(a, s, i) := Group([env], map[env := {h1, h2}])]
  {
    var l1, l2 := Join([env, a, s, i, h1], ':'), Join([env, a2, s2, i2, h2], ':');
    FiveFieldDeployment(env, a, s, i, h1);
    FiveFieldDeployment(env, a2, s2, i2, h2);
    BuildTwo(l1, l2, Deployment(env, a, s, i, h1), Deployment(env, a2, s2, i2, h2));
  }

  /** A deployment line of five colon-free fields, the first not blank-led nor `#`. */
  lemma FiveFieldDeployment(env: string, a: string, s: string, i: string, h: string)
    requires ':' !in env && ':' !in a && ':' !in s && ':' !in i && ':' !in h
    requires env != [] && !IsSpace(env[0]) && env[0] != '#'
    ensures ParseDeployment(Join([env, a, s, i, h], ':')) == Some(Deployment(env, a, s, i, h))
  {
    var l := Join([env, a, s, i, h], ':');
    JoinEnds([env, a, s, i, h], ':');
    assert l[0] == env[0];
    assert !IsBlank(l);
    ParseDeploymentFields(l, [env, a, s, i, h]);
  }

  lemma BuildTwo(l1: string, l2: string, r: Deployment, r2: Deployment)
    requires ParseDeployment(l1) == Some(r)
    requires ParseDeployment(l2) == Some(r2)
    requires r2.env == r.env && Key(r2.a, r2.s, r2.i) == Key(r.a, r.s, r.i)
    ensures BuildSpec([l1, l2]) == map[Key(r.a, r.s, r.i) := Group([r.env], map[r.env := {r.host, r2.host}])]
  {
    var ls: seq<string> := [l1, l2];
    var l1s: seq<string> := [l1];
    var key, env := Key(r.a, r.s, r.i), r.env;
    assert ls[..1] == l1s;
    assert l1s[..0] == [];
    var d1 := map[key := Group([env], map[env := {r.host}])];
    calc {
      BuildSpec(l1s);
      Deployments.Step(map[], l1);
      AddHost(map[], key, env, r.host);
      { AddHostToEmpty(key, env, r.host); }
      d1;
    }
    calc {
      BuildSpec(ls);
      Deployments.Step(d1, l2);
      AddHost(d1, key, env, r2.host);
      { AddHostToSingle(key, env, {r.host}, r2.host); }
      map[key := Group([env], map[env := {r.host} + {r2.host}])];
      { assert {r.host} + {r2.host} == {r.host, r2.host}; }
      map[key := Group([env], map[env := {r.host, r2.host}])];
    }
  }

  lemma AddHostToEmpty(key: string, env: string, h: string)
    ensures AddHost(map[], key, env, h) == map[key := Group([env], map[env := {h}])]
  {
    var none: set<string> := {};
    var g' := Group([env], map[env := none]);
    assert [] + [env] == [env];
    assert g'.hosts[env] + {h} == {h};
    assert g'.hosts[env := {h}] == map[env := {h}];
  }

  lemma AddHostToSingle(key: string, env: string, hs: set<string>, h: string)
    ensures AddHost(map[key := Group([env], map[env := hs])], key, env, h)
            == map[key := Group([env], map[env := hs + {h}])]
  {
    var m := map[env := hs];
    assert m[env := hs + {h}] == map[env := hs + {h}];
    var d := map[key := Group([env], m)];
    assert d[key := Group([env], map[env := hs + {h}])] == map[key := Group([env], map[env := hs + {h}])];
  }

  /** An asset line of seven colon-free fields with no surrounding whitespace. */
  lemma SevenFieldAsset(id: string, x: string, y: string, a: string, s: string, i: string, z: string)
    requires ':' !in id && ':' !in x && ':' !in y && ':' !in a && ':' !in s && ':' !in i && ':' !in z
    requires id != [] && !IsSpace(id[0])
    requires z != [] && !IsSpace(z[|z| - 1])
    ensures SplitAssetMap(Join([id, x, y, a, s, i, z], ':')) == Some(Asset(id, a, s, i))
  {
    var fields := [id, x, y, a, s, i, z];
    var line := Join(fields, ':');
    JoinEnds(fields, ':');
    assert line[0] == id[0];
    assert line[|line| - 1] == z[|z| - 1];
    StripKeeps(line);
    SplitAssetMapFields(line, fields);
  }

  /**
   * Loading and the join, before rendering, for colon-free fields that meet
   * the conditions below: a CMDB record `id:eon`, an asset line whose fields
   * 0, 3, 4, 5 are (id, a, s, i), and two deployments of key `a_s_i` in one
   * environment give exactly one report line, with the stripped EON id and
   * both hosts. The hosts are taken verbatim, so a line read with its newline
   * gives a host ending in that newline.
   */
  lemma OneAssetTwoHostsExample(id: string, eon: string, x: string, y: string, a: string, s: string, i: string,
                      z: string, env: string, h1: string, h2: string)
    requires ':' !in id && ':' !in eon && ':' !in x && ':' !in y && ':' !in a && ':' !in s
    requires ':' !in i && ':' !in z && ':' !in env && ':' !in h1 && ':' !in h2
    requires id != [] && !IsSpace(id[0]) && id[0] != '#'
    requires env != [] && !IsSpace(env[0]) && env[0] != '#'
    requires z != [] && !IsSpace(z[|z| - 1])
    ensures LoadSpec([Join([id, eon], ':')]) == Success(map[id := Strip(eon)])
    ensures ReportSpec([Join([id, x, y, a, s, i, z], ':')],
                       map[id := Strip(eon)],
                       BuildSpec([Join([env, a, s, i, h1], ':'), Join([env, a, s, i, h2], ':')]))
            == [ReportLine(Strip(eon), env, a, s, i, {h1, h2})]
  {
    SingleCmdbRecord(id, eon);
    TwoHostsOneGroup(env, a, s, i, h1, a, s, i, h2);
    SevenFieldAsset(id, x, y, a, s, i, z);
    OneGroupReport(Join([id, x, y, a, s, i, z], ':'), map[id := Strip(eon)],
                   BuildSpec([Join([env, a, s, i, h1], ':'), Join([env, a, s, i, h2], ':')]),
                   id, a, s, i, Strip(eon), env, {h1, h2});
  }
  /** A matched asset whose group has a single environment yields exactly one report line. */
  lemma OneGroupReport(line: string, cmdb: EonMap, d: DeploymentMap, id: string, a: string, s: string,
                       i: string, eon: string, env: string, hosts: set<string>)
    requires SplitAssetMap(line) == Some(Asset(id, a, s, i))
    requires cmdb == map[id := eon]
    requires d == map[Key(a, s, i) := Group([env], map[env := hosts])]
    ensures ReportSpec([line], cmdb, d) == [ReportLine(eon, env, a, s, i, hosts)]
  {
    assert Matched(line, cmdb, d);
    MatchedShape(line, cmdb, d);
    ReportSingle(line, cmdb, d);
  }

}
