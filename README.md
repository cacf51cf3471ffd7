# Inventory join script, modelled in Dafny

The script reads three colon-delimited inventory files and joins them into one report:

- `cmdb_eon_map.txt` maps a CMDB asset id to an EON id.
- `deployments.txt` lists `env:a:s:i:host[:...]` deployments.
- `assetmap.txt` lists assets with seven or more fields.

For every asset whose id has an EON id and whose `a_s_i` key has deployments, the report holds one line per environment:
`eon_id:env:a:s:i:host1,host2,...`.

The model follows `run.py` one function at a time:

- `text.dfy` (module `Text`) gives Python's `str.strip()`, `str.split(':')`, `','.join(...)` and `startswith('#')` over `seq<char>`. Split and join are proved inverse to each other.
- `cmdb.dfy` (module `Cmdb`) models `split_cmdb_eon_map`. The method `SplitCmdbEonMap` is a loop that updates a map. It is proved equal to the left fold `LoadSpec`. A record line without `:` becomes `Failure(NotEnoughValues(line))`, the model's form of the `ValueError` raised when unpacking fails.
- `assets.dfy` (module `Assets`) models `split_asset_map` as a pure function that returns an `Option`.
- `deployments.dfy` (module `Deployments`) models `process_deployment_file`.
  - The method `ProcessDeploymentFile` is a loop that updates a `map<string, Group>`.
  - The two `defaultdict` levels become an explicit get-or-create (`AddHost`).
  - A `Group` keeps its environments in insertion order. That is the order in which Python iterates the inner dict. `BuildEnvOrder` proves that this order is the order in which environments first appear among the accepted lines (`FirstEnvs`).
- `report.dfy` (module `Report`) models the join loop of `main`.
  - `GenerateReport` builds the output string with the outer loop, over asset lines. `GroupOutput` is the inner loop, over the environments of one matched group.
  - Both are proved against specification functions. `ReportSpec` gives the report lines in asset-file order, and `Render` formats them.
  - Python's set order is unspecified, so each line's hosts may come in any order. `GenerateReport`, `AssetOutput`, `GroupOutput` and `Run` also return `orders`, an ordinary out-parameter that records the host order each line used.
  - `Run` is the whole pipeline: load the CMDB map, build the deployment map, join.

## Behaviour worth knowing

- **Asset skip test.** The test at `run.py:58` is `not asset.strip() and asset.startswith('#')`. It never holds (`SkipGuardNeverHolds`).
  - Blank asset lines are dropped only because `split_asset_map` returns `None` for them.
  - A `#` line with seven or more fields is joined like any other line (`AssetReportEmpty`).
- **Trailing newlines.** `readlines` keeps each line's newline, and deployment fields are not stripped. So the host of a five-field deployment line read from a file ends in `\n`, and that `\n` is written into the report line before its own newline. `OneAssetTwoHostsExample` states loading and the join, before rendering, for colon-free fields that meet its conditions, with the hosts taken verbatim.
- **CMDB ids.** The CMDB id is not stripped, so an indented line keeps its indentation in the id. Only a `#` in the first column marks a comment (`IndentedHashIsRecord`).
- **Environment order.** Within one asset, report lines follow the environments in the order of their first accepted deployment line (`MatchedEnvOrder`).

## Model

| member | source | states |
|---|---|---|
| Text.IsSpace | run.py:14 | exactly the characters Python's `str.isspace` accepts, the set `strip()` removes at run.py:14, 21, 29 and 58 |
| Text.StartsWithHash | run.py:14 | `startswith('#')` as used at run.py:14, 29 and 58: the line is non-empty and its first character is `#` |
| Text.Strip | run.py:21 | the result is the slice of the input between its longest whitespace prefix and its longest whitespace suffix; its first and last characters are not whitespace; it is empty exactly when the line is blank |
| Text.StripIdempotent | run.py:21 | stripping an already stripped string changes nothing |
| Text.Split | run.py:21 | one piece more than the number of separators; no piece contains the separator; the first piece is the text before the first separator |
| Text.Join | run.py:70 | `sep.join(parts)`: the pieces in order with one separator between neighbours; `JoinSplit` and `SplitJoin` prove it the inverse of `Split` |
| Text.JoinSplit | run.py:21 | joining the pieces of a split with the same separator restores the string |
| Text.SplitJoin | run.py:21 | splitting a join of separator-free pieces restores the pieces |
| Cmdb.IsRecord | run.py:14 | a line is a record when its stripped text is non-empty and its first character is not `#` |
| Cmdb.Entry | run.py:15-16 | the unpacking succeeds exactly when the line holds a `:`; the id is then the colon-free text before the first `:` |
| Cmdb.Step | run.py:14-16 | one loop iteration: a non-record leaves the map unchanged, a record without `:` fails naming the line, otherwise the id is mapped to the stripped EON id; `LoadSkipsNonRecords`, `StepValue` and `StepDomain` state its properties |
| Cmdb.LoadSpec | run.py:12-17 | the loader as a left fold over the lines, stopping at the first record without `:`; the `Cmdb.Load*` lemmas state its properties |
| Cmdb.SplitCmdbEonMap | run.py:10-17 | the loop's result equals the fold `LoadSpec` of the lines, including the early abort on a bad record |
| Cmdb.FailureSticks | run.py:15 | once a prefix of the file has failed, the whole load fails with the same error, so there is no partial map |
| Cmdb.LoadSkipsNonRecords | run.py:14 | a blank line or a line starting with `#` leaves the result unchanged |
| Cmdb.LoadFailsAtFirstBadLine | run.py:15 | the load fails, naming the first record line that has no `:`, whenever such a line exists |
| Cmdb.LoadSucceeds | run.py:13-16 | without such a line, the load succeeds |
| Cmdb.LoadDomain | run.py:13-16 | an id is in the map exactly when some record line assigns it |
| Cmdb.LoadLastWriteWins | run.py:13-16 | when no record line lacks a `:`, the load succeeds and the map holds the stripped second field of the last record line with that id |
| Cmdb.EntryIgnoresExtraFields | run.py:15 | fields after the second do not change the entry; the EON id is the stripped second field |
| Cmdb.IndentedHashIsRecord | run.py:14 | a line with whitespace before `#` is a record, and its id keeps that whitespace and the `#` |
| Assets.SplitAssetMap | run.py:19-23 | returns an asset exactly when the stripped line has at least six colons, and always `None` for a blank line |
| Assets.SplitAssetMapFields | run.py:21-23 | for a stripped line made of seven or more colon-free fields, the asset is fields 0, 3, 4 and 5, in that order |
| Assets.SplitAssetMapIgnoresPadding | run.py:21 | whitespace around the line does not change the result |
| Deployments.Key | run.py:33 | the key is as long as its three parts plus two separators; it starts with `a` then `_` and ends with `i` |
| Deployments.KeyIsJoin | run.py:33 | the composite key is the `_`-join of `a`, `s` and `i` |
| Deployments.KeyInjective | run.py:33 | when no part holds `_`, equal keys have equal parts |
| Deployments.KeyCollision | run.py:67 | triples with `_` inside a part can build the same key, so an asset matches such a group |
| Deployments.ParseDeployment | run.py:29-32 | a line is used exactly when it is not blank, does not start with `#` and has at least four colons |
| Deployments.ParseDeploymentFields | run.py:30-32 | a used line gives its first five fields unchanged, so the host keeps any trailing newline |
| Deployments.AddHost | run.py:27-34 | adds the host to the set of the given key and environment and changes no other set; creates the key and environment on first use; appends a new environment to the key's environment order and leaves that order unchanged for a known one; keeps groups valid |
| Deployments.Step | run.py:29-34 | one loop iteration: a skipped line leaves the map unchanged, a used line adds its host under its key and environment; `SkippedLineChangesNothing` and `StepHosts` state its properties |
| Deployments.HostsIn | run.py:69-70 | the host set a group holds for an environment, empty when the environment is absent |
| Deployments.BuildSpec | run.py:27-35 | the builder as a left fold over the lines; the `Deployments.Build*` lemmas state its properties |
| Deployments.ProcessDeploymentFile | run.py:25-35 | the loop's result equals the fold `BuildSpec` of the lines |
| Deployments.SkippedLineChangesNothing | run.py:29-31 | a blank line, a `#` line or a line with fewer than five fields leaves the map unchanged |
| Deployments.BuildValid | run.py:27-34 | every group lists each environment once, at least one, and every host set is non-empty |
| Deployments.StepHosts | run.py:32-34 | one line adds its host to its own key and environment and to no other |
| Deployments.BuildHosts | run.py:28-34 | the host set for a key and environment is exactly the set of host fields of the used lines with that key and environment |
| Deployments.BuildDomain | run.py:29-34 | an environment entry exists under a key exactly when some used line names both |
| Deployments.BuildEnvs | run.py:29-34 | a key exists exactly when some used line builds it, and its environments are those of the used lines that build it |
| Deployments.BuildEnvCount | run.py:34 | a key has as many environments as there are distinct environments among the used lines that build it |
| Deployments.FirstEnvs | run.py:28-34 | the environments of the used lines under a key, each once, in order of first appearance |
| Deployments.BuildEnvOrder | run.py:27-34 | the environment order under a key is exactly the order in which its environments first appear among the used lines; a key without used lines lists none |
| Report.SkipGuard | run.py:58 | the skip test exactly as written: the stripped line is empty and the line starts with `#` |
| Report.SkipGuardNeverHolds | run.py:58-59 | the asset skip test is false for every line |
| Report.AssetReport | run.py:58-70 | the report lines one asset line adds, before formatting; `AssetReportEmpty`, `MatchedAssetLines` and `MatchedEnvOrder` state its properties |
| Report.GroupLines | run.py:69-70 | the report lines of one matched group: one per environment, in the group's order, each with its host set; `MatchedShape` and `MatchedAssetLines` state its properties |
| Report.Reports | run.py:57-70 | the report lines of each asset line, one block per line, in file order |
| Report.ReportSpec | run.py:56-70 | the report lines of all asset lines, in file order; `ReportSnoc` and `ReportAppend` state its properties |
| Report.FormatLine | run.py:70 | a formatted line starts with the EON id and a `:` and ends in a newline |
| Report.Render | run.py:56-70 | the output text: the formatted report lines concatenated in order, each with its own host order; `RenderSnoc`, `RenderAppend` and `RenderNewlines` state its properties |
| Report.ListHosts | run.py:70 | the list holds every host of the set exactly once |
| Report.GroupOutput | run.py:69-70 | the text renders one line per environment of the group, in the group's order, each with an order of that environment's hosts |
| Report.AssetOutput | run.py:58-70 | the text for one asset line renders that line's report lines, each with an order of its hosts |
| Report.GenerateReport | run.py:56-70 | the output renders `ReportSpec` of the asset lines, each line with an order of its hosts |
| Report.Run | run.py:49-70 | the run fails with the CMDB error exactly when loading the CMDB file fails; otherwise it returns the rendered report over both built maps |
| Report.ReportSnoc | run.py:57-70 | one more asset line appends its own report lines after those of the earlier lines |
| Report.ReportAppend | run.py:57-70 | the report of two runs of asset lines is the first report followed by the second, so output follows asset-file order |
| Report.ReportsAppend | run.py:57 | the blocks of two runs of asset lines are the blocks of the first followed by those of the second |
| Report.AssetReportEmpty | run.py:58-68 | over a built deployment map, an asset line adds output exactly when it parses, its id is in the CMDB map and its key is in the deployment map |
| Report.MatchedAssetLines | run.py:62-70 | a matched asset adds one line per distinct environment under its key; each line has the asset's EON id and fields, a different environment, and the non-empty union of that environment's hosts |
| Report.MatchedEnvOrder | run.py:68-70 | a matched asset's report lines follow its key's environments in order of first appearance among the used deployment lines |
| Report.FormatLineNewlines | run.py:70 | when no field holds a newline, a formatted line holds exactly one newline, as its last character |
| Report.RenderNewlines | run.py:69-70 | under the same condition, the text holds exactly one newline per report line |
| Report.SingleCmdbRecord | run.py:13-16 | a file of one record `id:eon`, with `id` non-empty and not starting with whitespace or `#`, loads to the map from `id` to the stripped `eon` |
| Report.FiveFieldDeployment | run.py:29-32 | a five-field line whose first field is non-empty and does not start with whitespace or `#` parses to its fields |
| Report.BuildTwo | run.py:28-34 | two used lines with the same environment and equal composite keys, even when built from different `a`, `s`, `i` fields (colliding triples), build one group with that environment and both hosts |
| Report.AddHostToEmpty | run.py:27-34 | the first insertion creates the key, the environment and a one-host set |
| Report.AddHostToSingle | run.py:34 | a later insertion for the same key and environment adds the host to its set |
| Report.TwoHostsOneGroup | run.py:28-34 | two colon-free five-field deployments with one environment and equal composite keys (their `a`, `s`, `i` fields may differ), the environment non-empty and not starting with whitespace or `#`, give one group holding both hosts |
| Report.SevenFieldAsset | run.py:19-23 | a seven-field asset line whose first field is non-empty and does not start with whitespace, and whose last field is non-empty and does not end with it, parses to fields 0, 3, 4 and 5 |
| Report.OneGroupReport | run.py:62-70 | a parsed asset whose id is the only CMDB id and whose key holds one group with one environment yields exactly one report line, with the EON id, that environment, the asset's fields and the group's hosts |
| Report.OneAssetTwoHostsExample | run.py:49-70 | loading and the join, before rendering: for colon-free fields, with the CMDB id and the environment non-empty and not starting with whitespace or `#`, and the last asset field `z` non-empty and not ending in whitespace, one CMDB record, one matching seven-field asset and two deployments in one environment give exactly one report line, with the stripped EON id and both hosts taken verbatim |

## Left out

- `read_file` (`run.py:5-8`): the model takes each file as a sequence of lines, each keeping its newline as `readlines` does. Opening files and the error for a missing file are not modelled.
- `os.path.join` and the three fixed file names (`run.py:39-47`): path handling. `Run` takes the three line sequences as parameters.
- `print(output)` (`run.py:71`): the model returns the output string. It does not model writing to standard output or the extra newline that `print` adds.
- argparse and the command-line entry point (`run.py:73-77`): wiring with no logic.
- Report.ListHosts: the contract allows any order of the host set, because `list(set)` follows Python's hash and set iteration order, which the language does not specify.
- Report.GenerateReport: host order within a line is stated only up to permutation (each `orders[k]` enumerates the host set), for the same reason. Environment order is modelled: it is the dict insertion order.
- `defaultdict` itself (`run.py:27`): it is replaced by the explicit get-or-create in `AddHost` and `ProcessDeploymentFile`.
- The Python exception (`run.py:15`): it is modelled as the error value `NotEnoughValues(line)`, not as a `ValueError` with a traceback. The whole run aborts with no output, as in the script.
