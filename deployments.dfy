/**
 * The deployment map builder (`process_deployment_file`). Every line
 * `env:a:s:i:host[:...]` that is neither blank nor a `#` comment adds `host`
 * to the host set of environment `env` under the key `a_s_i`; lines with fewer
 * than five fields are skipped. The two `defaultdict` levels become an
 * explicit get-or-create.
 */
module Deployments {
  import opened Wrappers
  import opened Text

  /** `f"{a}_{s}_{i}"`: the composite key shared by deployments and assets. */
  function Key(a: string, s: string, i: string): (k: string)
    ensures |k| == |a| + |s| + |i| + 2
    ensures k[..|a|] == a && k[|a|] == '_' && k[|k| - |i|..] == i
  {
    a + "_" + s + "_" + i
  }

  /** The key is the `_`-join of its three parts. */
  lemma KeyIsJoin(a: string, s: string, i: string)
    ensures Key(a, s, i) == Join([a, s, i], '_')
  {
    JoinCons(s, [i], '_');
    JoinCons(a, [s, i], '_');
    assert [a] + [s, i] == [a, s, i];
  }

  /** Without `_` in the parts, the key determines its three parts. */
  lemma KeyInjective(a: string, s: string, i: string, a': string, s': string, i': string)
    requires '_' !in a && '_' !in s && '_' !in i
    requires '_' !in a' && '_' !in s' && '_' !in i'
    requires Key(a, s, i) == Key(a', s', i')
    ensures a == a' && s == s' && i == i'
  {
    KeyIsJoin(a, s, i);
    KeyIsJoin(a', s', i');
    SplitJoin([a, s, i], '_');
    SplitJoin([a', s', i'], '_');
  }

  /** With `_` inside a part, two different triples can share one key. */
  lemma KeyCollision()
    ensures Key("a_b", "c", "d") == Key("a", "b_c", "d")
  {
  }

  /** The parsed fields of a deployment line. */
  datatype Deployment = Deployment(env: string, a: string, s: string, i: string, host: string)

  /**
   * The test and the five-name unpacking of one line: the line is neither blank
   * nor a `#` comment and has at least five fields. Fields come from the
   * unstripped line, so the host keeps a trailing newline.
   */
  function ParseDeployment(line: string): (r: Option<Deployment>)
    ensures r.Some? <==> !IsBlank(line) && !StartsWithHash(line) && Count(line, ':') >= 4
  {
    if Strip(line) != [] && !StartsWithHash(line) then
      var f := Split(line, ':');
      if |f| >= 5 then Some(Deployment(f[0], f[1], f[2], f[3], f[4])) else None
    else None
  }

  /** A record line of five or more colon-free fields yields its first five, unchanged. */
  lemma ParseDeploymentFields(line: string, fields: seq<string>)
    requires |fields| >= 5
    requires forall k :: 0 <= k < |fields| ==> ':' !in fields[k]
    requires line == Join(fields, ':')
    requires !IsBlank(line) && !StartsWithHash(line)
    ensures ParseDeployment(line) == Some(Deployment(fields[0], fields[1], fields[2], fields[3], fields[4]))
  {
    SplitJoin(fields, ':');
  }

  /**
   * The environments under one key, in the order they were first inserted
   * (the iteration order of the inner dictionary), and their host sets.
   */
  datatype Group = Group(envs: seq<string>, hosts: map<string, set<string>>)

  /** Composite key to group. */
  type DeploymentMap = map<string, Group>

  predicate Distinct(s: seq<string>) {
    forall j, k :: 0 <= j < k < |s| ==> s[j] != s[k]
  }

  /**
   * A group holds at least one environment, its envs list the keys of the host
   * map once each, and no host set is empty.
   */
  predicate ValidGroup(g: Group) {
    && g.envs != []
    && Distinct(g.envs)
    && (forall e :: e in g.envs ==> e in g.hosts)
    && (forall e :: e in g.hosts ==> e in g.envs)
    && (forall e :: e in g.hosts ==> g.hosts[e] != {})
  }

  /** The hosts of `env` in a group, empty where it has none. */
  function HostsIn(g: Group, env: string): set<string> {
    if env in g.hosts then g.hosts[env] else {}
  }

  /** The hosts of `env` under `key`, empty where the map has no entry. */
  function Hosts(d: DeploymentMap, key: string, env: string): set<string> {
    if key in d then HostsIn(d[key], env) else {}
  }

  /** `deployment_map[key][env].add(host)`, creating both levels on first use. */
  function AddHost(d: DeploymentMap, key: string, env: string, host: string): (r: DeploymentMap)
    ensures r.Keys == d.Keys + {key}
    ensures forall k :: k in d && k != key ==> r[k] == d[k]
    ensures Hosts(r, key, env) == Hosts(d, key, env) + {host}
    ensures forall e :: e != env ==> Hosts(r, key, e) == Hosts(d, key, e)
    ensures forall k, e :: k != key ==> Hosts(r, k, e) == Hosts(d, k, e)
    ensures key in d && ValidGroup(d[key]) ==> ValidGroup(r[key])
    ensures key !in d ==> ValidGroup(r[key])
    ensures key in d && env in d[key].hosts ==> r[key].envs == d[key].envs
    ensures key in d && env !in d[key].hosts ==> r[key].envs == d[key].envs + [env]
    ensures key !in d ==> r[key].envs == [env]
  {
    var g := if key in d then d[key] else Group([], map[]);
    var g' := if env in g.hosts then g else Group(g.envs + [env], g.hosts[env := {}]);
    d[key := g'.(hosts := g'.hosts[env := g'.hosts[env] + {host}])]
  }

  /** One iteration of the building loop. */
  function Step(d: DeploymentMap, line: string): DeploymentMap {
    match ParseDeployment(line)
    case None => d
    case Some(r) => AddHost(d, Key(r.a, r.s, r.i), r.env, r.host)
  }

  /** The map built from `lines` in order. */
  function BuildSpec(lines: seq<string>): DeploymentMap
    decreases |lines|
  {
    if lines == [] then map[] else Step(BuildSpec(lines[..|lines| - 1]), lines[|lines| - 1])
  }

  /** The loop of `process_deployment_file`, updating the nested map in place. */
  method ProcessDeploymentFile(lines: seq<string>) returns (d: DeploymentMap)
    ensures d == BuildSpec(lines)
  {
    d := map[];
    for n := 0 to |lines|
      invariant d == BuildSpec(lines[..n])
    {
      assert lines[..n + 1][..n] == lines[..n];
      var line := lines[n];
      ghost var before := d;
      assert BuildSpec(lines[..n + 1]) == Step(before, line);
      if Strip(line) != [] && !StartsWithHash(line) {
        var f := Split(line, ':');
        if |f| >= 5 {
          var e, a, s, i, host := f[0], f[1], f[2], f[3], f[4];
          assert ParseDeployment(line) == Some(Deployment(e, a, s, i, host));
          var key := Key(a, s, i);
          var group := if key in d then d[key] else Group([], map[]);
          if e !in group.hosts {
            group := Group(group.envs + [e], group.hosts[e := {}]);
          }
          group := group.(hosts := group.hosts[e := group.hosts[e] + {host}]);
          d := d[key := group];
          assert d == AddHost(before, key, e, host);
        } else {
          assert ParseDeployment(line) == None;
        }
      } else {
        assert ParseDeployment(line) == None;
      }
    }
    assert lines[..|lines|] == lines;
  }

  /** A skipped line (blank, `#`, or under five fields) changes nothing. */
  lemma SkippedLineChangesNothing(lines: seq<string>, line: string)
    requires ParseDeployment(line) == None
    ensures BuildSpec(lines + [line]) == BuildSpec(lines)
  {
    assert (lines + [line])[..|lines|] == lines;
  }

  /** Every group of a built map is valid. */
  lemma {:induction false} BuildValid(lines: seq<string>)
    ensures forall key :: key in BuildSpec(lines) ==> ValidGroup(BuildSpec(lines)[key])
    decreases |lines|
  {
    if lines != [] {
      BuildValid(lines[..|lines| - 1]);
    }
  }

  /** `line` is an accepted deployment line whose fields build `key`. */
  predicate Names(line: string, key: string) {
    match ParseDeployment(line)
    case None => false
    case Some(r) => Key(r.a, r.s, r.i) == key
  }

  /** `line` is an accepted deployment line for `env` under `key`. */
  predicate Contributes(line: string, key: string, env: string) {
    Names(line, key) && ParseDeployment(line).value.env == env
  }

  /** The host fields of all accepted lines for `env` under `key`. */
  function HostsFromLines(lines: seq<string>, key: string, env: string): set<string> {
    set k | 0 <= k < |lines| && Contributes(lines[k], key, env) :: ParseDeployment(lines[k]).value.host
  }

  /** The environments of all accepted lines under `key`. */
  function EnvsFromLines(lines: seq<string>, key: string): set<string> {
    set k | 0 <= k < |lines| && Names(lines[k], key) :: ParseDeployment(lines[k]).value.env
  }

  lemma HostsFromLinesSnoc(lines: seq<string>, line: string, key: string, env: string)
    ensures HostsFromLines(lines + [line], key, env)
         == HostsFromLines(lines, key, env)
            + (if Contributes(line, key, env) then {ParseDeployment(line).value.host} else {})
  {
    var all := lines + [line];
    forall k | 0 <= k < |lines| ensures all[k] == lines[k] { }
    assert all[|lines|] == line;
  }

  /** One line adds its host to its own environment and key, and nowhere else. */
  lemma StepHosts(d: DeploymentMap, line: string, key: string, env: string)
    ensures Hosts(Step(d, line), key, env)
         == Hosts(d, key, env)
            + (if Contributes(line, key, env) then {ParseDeployment(line).value.host} else {})
  {
    match ParseDeployment(line)
    case None =>
    case Some(r) =>
      var k := Key(r.a, r.s, r.i);
      if k == key && r.env == env {
      } else if k == key {
      } else {
      }
  }

  /**
   * Host sets are unions: the hosts of `env` under `key` are exactly the host
   * fields of the accepted lines with that environment and key, duplicates
   * collapsed.
   */
  lemma {:induction false} BuildHosts(lines: seq<string>, key: string, env: string)
    ensures Hosts(BuildSpec(lines), key, env) == HostsFromLines(lines, key, env)
    decreases |lines|
  {
    if lines != [] {
      var init := lines[..|lines| - 1];
      var last := lines[|lines| - 1];
      assert init + [last] == lines;
      assert BuildSpec(lines) == Step(BuildSpec(init), last);
      BuildHosts(init, key, env);
      StepHosts(BuildSpec(init), last, key, env);
      HostsFromLinesSnoc(init, last, key, env);
    }
  }

  /**
   * An environment entry exists only for accepted lines: the map has `env`
   * under `key` exactly when some accepted line names both.
   */
  lemma BuildDomain(lines: seq<string>, key: string, env: string)
    ensures (key in BuildSpec(lines) && env in BuildSpec(lines)[key].hosts)
            <==> HostsFromLines(lines, key, env) != {}
  {
    BuildValid(lines);
    BuildHosts(lines, key, env);
  }

  /**
   * A key exists only for accepted lines, and the environments listed under it
   * are exactly those of the accepted lines naming it.
   */
  lemma BuildEnvs(lines: seq<string>, key: string)
    ensures key in BuildSpec(lines) <==> EnvsFromLines(lines, key) != {}
    ensures key in BuildSpec(lines) ==>
              forall e :: e in BuildSpec(lines)[key].envs <==> e in EnvsFromLines(lines, key)
  {
    var d := BuildSpec(lines);
    BuildValid(lines);
    forall e ensures e in EnvsFromLines(lines, key) <==> (key in d && e in d[key].hosts) {
      BuildDomain(lines, key, e);
      if e in EnvsFromLines(lines, key) {
        var k :| 0 <= k < |lines| && Names(lines[k], key) && ParseDeployment(lines[k]).value.env == e;
        assert ParseDeployment(lines[k]).value.host in HostsFromLines(lines, key, e);
      }
      if HostsFromLines(lines, key, e) != {} {
        var h :| h in HostsFromLines(lines, key, e);
        var k :| 0 <= k < |lines| && Contributes(lines[k], key, e) && ParseDeployment(lines[k]).value.host == h;
        assert e in EnvsFromLines(lines, key);
      }
    }
    if key in d {
      assert d[key].envs[0] in EnvsFromLines(lines, key);
    }
  }

  /** A sequence without repetitions has as many elements as its set. */
  lemma {:induction false} DistinctCard(s: seq<string>)
    requires Distinct(s)
    ensures |set x | x in s| == |s|
  {
    if s != [] {
      var t := s[..|s| - 1];
      DistinctCard(t);
      assert (set x | x in s) == (set x | x in t) + {s[|s| - 1]};
    }
  }

  /** A sequence without repetitions that lists exactly the elements of `xs` has `|xs|` elements. */
  lemma DistinctListsSet(s: seq<string>, xs: set<string>)
    requires Distinct(s)
    requires forall e :: e in s <==> e in xs
    ensures |s| == |xs|
  {
    DistinctCard(s);
    assert (set x | x in s) == xs;
  }

  /** Under a key, there are as many environments as distinct environments in accepted lines. */
  lemma BuildEnvCount(lines: seq<string>, key: string)
    requires key in BuildSpec(lines)
    ensures |BuildSpec(lines)[key].envs| == |EnvsFromLines(lines, key)|
  {
    var g := BuildSpec(lines)[key];
    BuildValid(lines);
    assert ValidGroup(g);
    BuildEnvs(lines, key);
    DistinctListsSet(g.envs, EnvsFromLines(lines, key));
  }

  /**
   * The environments of the accepted lines under `key`, each listed once, in
   * the order of its first accepted line: the iteration order of
   * `deployment_map[key]`.
   */
  function FirstEnvs(lines: seq<string>, key: string): seq<string>
    decreases |lines|
  {
    if lines == [] then []
    else
      var prev := FirstEnvs(lines[..|lines| - 1], key);
      var line := lines[|lines| - 1];
      if Names(line, key) && ParseDeployment(line).value.env !in prev
      then prev + [ParseDeployment(line).value.env]
      else prev
  }

  /**
   * Environment order: the environments listed under a key are those of its
   * accepted lines, in order of first appearance; a key without accepted
   * lines has none.
   */
  lemma {:induction false} BuildEnvOrder(lines: seq<string>, key: string)
    ensures key in BuildSpec(lines) ==> BuildSpec(lines)[key].envs == FirstEnvs(lines, key)
    ensures key !in BuildSpec(lines) ==> FirstEnvs(lines, key) == []
    decreases |lines|
  {
    if lines != [] {
      var init := lines[..|lines| - 1];
      var line := lines[|lines| - 1];
      var d := BuildSpec(init);
      assert BuildSpec(lines) == Step(d, line);
      BuildEnvOrder(init, key);
      BuildValid(init);
      if key in d {
        assert ValidGroup(d[key]);
      }
    }
  }
}
