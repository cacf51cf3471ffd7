/**
 * The CMDB-to-EON map loader (`split_cmdb_eon_map`): every line
 * `cm_id:eon_id[:...]` that is neither blank nor a `#` comment sets
 * `map[cm_id] := eon_id.strip()`, later lines overwriting earlier ones; a
 * record line without any `:` makes the two-name unpacking raise, which
 * aborts the whole load.
 */
module Cmdb {
  import opened Wrappers
  import opened Text

  /** The exception raised by `cm_id, eon_id = ...` on a record with one field. */
  datatype LoadError = NotEnoughValues(line: string)

  /** CMDB id to EON id. */
  type EonMap = map<string, string>

  /** `data.strip() and not data.startswith('#')`: the line is a record. */
  predicate IsRecord(line: string) {
    Strip(line) != [] && !StartsWithHash(line)
  }

  /**
   * `cm_id, eon_id = line.split(":")[:2]` followed by `eon_id.strip()`;
   * None where the unpacking raises. The id is the text before the first `:`.
   */
  function Entry(line: string): (r: Option<(string, string)>)
    ensures r.Some? <==> ':' in line
    ensures r.Some? ==> |r.value.0| < |line| && line[..|r.value.0|] == r.value.0
                        && line[|r.value.0|] == ':' && ':' !in r.value.0
  {
    var fields := Split(line, ':');
    if |fields| < 2 then None else Some((fields[0], Strip(fields[1])))
  }

  /** One iteration of the loading loop. */
  function Step(m: EonMap, line: string): Result<EonMap, LoadError> {
    if !IsRecord(line) then Success(m)
    else match Entry(line)
      case None => Failure(NotEnoughValues(line))
      case Some((id, eon)) => Success(m[id := eon])
  }

  /** The result of loading `lines` in order, stopping at the first failure. */
  function LoadSpec(lines: seq<string>): Result<EonMap, LoadError>
    decreases |lines|
  {
    if lines == [] then Success(map[])
    else match LoadSpec(lines[..|lines| - 1])
      case Failure(e) => Failure(e)
      case Success(m) => Step(m, lines[|lines| - 1])
  }

  /** The loop of `split_cmdb_eon_map`, updating the dictionary in place. */
  method SplitCmdbEonMap(lines: seq<string>) returns (r: Result<EonMap, LoadError>)
    ensures r == LoadSpec(lines)
  {
    var m: EonMap := map[];
    for i := 0 to |lines|
      invariant LoadSpec(lines[..i]) == Success(m)
    {
      assert lines[..i + 1][..i] == lines[..i];
      var line := lines[i];
      if Strip(line) != [] && !StartsWithHash(line) {
        var fields := Split(line, ':');
        if |fields| < 2 {
          FailureSticks(lines, i + 1);
          return Failure(NotEnoughValues(line));
        }
        m := m[fields[0] := Strip(fields[1])];
      }
    }
    assert lines[..|lines|] == lines;
    return Success(m);
  }

  /** Once a prefix has failed, the whole load fails with the same error. */
  lemma {:induction false} FailureSticks(lines: seq<string>, n: nat)
    requires n <= |lines|
    requires LoadSpec(lines[..n]).Failure?
    ensures LoadSpec(lines) == LoadSpec(lines[..n])
    decreases |lines| - n
  {
    if n < |lines| {
      var init := lines[..|lines| - 1];
      assert init[..n] == lines[..n];
      FailureSticks(init, n);
    } else {
      assert lines[..n] == lines;
    }
  }

  /** A record line on which the two-name unpacking raises. */
  predicate MissingColon(line: string) {
    IsRecord(line) && ':' !in line
  }

  /** A blank line or a line starting with `#` leaves the map as it was. */
  lemma LoadSkipsNonRecords(lines: seq<string>, line: string)
    requires !IsRecord(line)
    ensures LoadSpec(lines + [line]) == LoadSpec(lines)
  {
    assert (lines + [line])[..|lines|] == lines;
  }

  /** The load fails, with the first record line that has no `:`, when there is one. */
  lemma {:induction false} LoadFailsAtFirstBadLine(lines: seq<string>, k: nat)
    requires k < |lines| && MissingColon(lines[k])
    requires forall j :: 0 <= j < k ==> !MissingColon(lines[j])
    ensures LoadSpec(lines) == Failure(NotEnoughValues(lines[k]))
  {
    LoadSucceeds(lines[..k]);
    assert lines[..k + 1][..k] == lines[..k];
    FailureSticks(lines, k + 1);
  }

  /** Without such a line, the load succeeds. */
  lemma {:induction false} LoadSucceeds(lines: seq<string>)
    requires forall j :: 0 <= j < |lines| ==> !MissingColon(lines[j])
    ensures LoadSpec(lines).Success?
    decreases |lines|
  {
    if lines != [] {
      LoadSucceeds(lines[..|lines| - 1]);
    }
  }

  /** `line` is a record that assigns `id`. */
  predicate Defines(line: string, id: string) {
    IsRecord(line) && Entry(line).Some? && Entry(line).value.0 == id
  }

  /** One record line adds its own id to the map and nothing else. */
  lemma StepDomain(m: EonMap, line: string, id: string)
    requires Step(m, line).Success?
    ensures id in Step(m, line).value <==> id in m || Defines(line, id)
  {
  }

  /** Some line of `lines` is a record that assigns `id`. */
  predicate Assigned(lines: seq<string>, id: string) {
    exists k :: 0 <= k < |lines| && Defines(lines[k], id)
  }

  /** Appending a line adds exactly the id that line assigns. */
  lemma AssignedSnoc(init: seq<string>, line: string, id: string)
    ensures Assigned(init + [line], id) <==> Assigned(init, id) || Defines(line, id)
  {
    var lines := init + [line];
    if Assigned(lines, id) && !Defines(line, id) {
      var k :| 0 <= k < |lines| && Defines(lines[k], id);
      assert k < |init| && init[k] == lines[k];
    }
    if Assigned(init, id) {
      var k :| 0 <= k < |init| && Defines(init[k], id);
      assert lines[k] == init[k];
    }
    if Defines(line, id) {
      assert lines[|init|] == line;
    }
  }

  /** The ids in the map are exactly the ids of the record lines. */
  lemma {:induction false} LoadDomain(lines: seq<string>, id: string)
    requires LoadSpec(lines).Success?
    ensures id in LoadSpec(lines).value <==> Assigned(lines, id)
    decreases |lines|
  {
    if lines != [] {
      var init := lines[..|lines| - 1];
      var line := lines[|lines| - 1];
      assert lines == init + [line];
      assert LoadSpec(init).Success?;
      LoadDomain(init, id);
      StepDomain(LoadSpec(init).value, line, id);
      AssignedSnoc(init, line, id);
    }
  }

  /** One line sets the EON id of the id it assigns and keeps every other entry. */
  lemma StepValue(m: EonMap, line: string, id: string)
    requires Step(m, line).Success?
    ensures Defines(line, id) ==> id in Step(m, line).value
                                  && Step(m, line).value[id] == Entry(line).value.1
    ensures !Defines(line, id) && id in m ==> id in Step(m, line).value
                                              && Step(m, line).value[id] == m[id]
  {
  }

  /** Last write wins: the map holds the EON id of the last record assigning `id`. */
  lemma {:induction false} LoadLastWriteWins(lines: seq<string>, k: nat, id: string)
    requires forall j :: 0 <= j < |lines| ==> !MissingColon(lines[j])
    requires k < |lines| && Defines(lines[k], id)
    requires forall j :: k < j < |lines| ==> !Defines(lines[j], id)
    ensures LoadSpec(lines).Success? && id in LoadSpec(lines).value
    ensures LoadSpec(lines).Success? && LoadSpec(lines).value[id] == Entry(lines[k]).value.1
    decreases |lines|
  {
    var init := lines[..|lines| - 1];
    var line := lines[|lines| - 1];
    LoadSucceeds(lines);
    LoadSucceeds(init);
    assert LoadSpec(lines) == Step(LoadSpec(init).value, line);
    if k < |lines| - 1 {
      assert init[k] == lines[k];
      forall j | k < j < |init| ensures !Defines(init[j], id) {
        assert init[j] == lines[j];
      }
      LoadLastWriteWins(init, k, id);
    }
    StepValue(LoadSpec(init).value, line, id);
  }

  /** Only the first two fields of a record are read. */
  lemma EntryIgnoresExtraFields(id: string, eon: string, rest: string)
    requires ':' !in id && ':' !in eon
    ensures Entry(id + ":" + eon + ":" + rest) == Some((id, Strip(eon)))
    ensures Entry(id + ":" + eon) == Some((id, Strip(eon)))
  {
    var t := eon + [':'] + rest;
    assert id + ":" + eon + ":" + rest == id + [':'] + t;
    SplitCons(id, ':', t);
    SplitCons(eon, ':', rest);
    assert id + ":" + eon == id + [':'] + eon;
    SplitCons(id, ':', eon);
    SplitNoSep(eon, ':');
  }

  /**
   * Only a `#` in the first column marks a comment: a line indented before its
   * `#` is a record, and the id it assigns keeps the indentation and the `#`.
   */
  lemma IndentedHashIsRecord(ws: string, id: string, eon: string)
    requires ws != [] && IsBlank(ws)
    requires ':' !in id && ':' !in eon
    ensures IsRecord(ws + "#" + id + ":" + eon)
    ensures Defines(ws + "#" + id + ":" + eon, ws + "#" + id)
    ensures Entry(ws + "#" + id + ":" + eon).value.1 == Strip(eon)
  {
    var line := ws + "#" + id + ":" + eon;
    assert !IsSpace(line[|ws|]);
    assert IsSpace(line[0]);
    assert ':' !in ws;
    assert ':' !in ws + "#" + id;
    EntryIgnoresExtraFields(ws + "#" + id, eon, "");
  }
}
