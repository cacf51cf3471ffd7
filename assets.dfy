/**
 * The asset line parser (`split_asset_map`): strip the line, split it on `:`
 * and, when there are at least seven fields, keep fields 0, 3, 4 and 5.
 */
module Assets {
  import opened Wrappers
  import opened Text

  /** The CMDB id and the application, service and instance fields of an asset. */
  datatype Asset = Asset(id: string, a: string, s: string, i: string)

  /**
   * `split_asset_map(line)`: an asset exactly when the stripped line has at
   * least seven fields, that is at least six colons; Python's implicit `None`
   * otherwise.
   */
  function SplitAssetMap(line: string): (r: Option<Asset>)
    ensures r.Some? <==> Count(Strip(line), ':') >= 6
    ensures IsBlank(line) ==> r == None
  {
    var parts := Split(Strip(line), ':');
    if |parts| >= 7 then Some(Asset(parts[0], parts[3], parts[4], parts[5])) else None
  }

  /**
   * A line whose stripped text is the colon-join of seven or more colon-free
   * fields yields fields 0, 3, 4 and 5, in that order.
   */
  lemma SplitAssetMapFields(line: string, fields: seq<string>)
    requires |fields| >= 7
    requires forall k :: 0 <= k < |fields| ==> ':' !in fields[k]
    requires Strip(line) == Join(fields, ':')
    ensures SplitAssetMap(line) == Some(Asset(fields[0], fields[3], fields[4], fields[5]))
  {
    SplitJoin(fields, ':');
  }

  /** Whitespace around the line does not change the parse. */
  lemma SplitAssetMapIgnoresPadding(line: string)
    ensures SplitAssetMap(Strip(line)) == SplitAssetMap(line)
  {
    StripIdempotent(line);
  }
}
