/**
 * The `search` tool (ads_mcp/tools/search.py, lines 23-69): build the query,
 * hand it to the transport's streaming search, and flatten the streamed
 * batches into one list of projected rows.
 *
 * The transport is a function parameter: given the customer id and the
 * query it yields the batches, or fails with an error that `search`
 * propagates unchanged.
 */
module SearchTool {
  import opened Outcomes
  import opened QueryBuilder
  import opened Normalizer

  /** One streamed response: its rows and the paths of its field mask. */
  datatype Batch<Row> = Batch(results: seq<Row>, fieldMaskPaths: seq<string>)

  /** A projected row: attribute path to normalised value. */
  type NormalizedRow = map<string, WireValue>

  /** The rows of one batch, each projected with that batch's field-mask paths. */
  function ProjectBatch<Row>(batch: Batch<Row>, resolve: (Row, string) -> WireValue,
                             conv: Converters): (r: seq<NormalizedRow>)
  {
    seq(|batch.results|, j requires 0 <= j < |batch.results| =>
      FormatOutputRow(batch.results[j], batch.fieldMaskPaths, resolve, conv))
  }

  /** All batches' projected rows, in stream order: one entry per streamed row. */
  function Projected<Row>(batches: seq<Batch<Row>>, resolve: (Row, string) -> WireValue,
                          conv: Converters): (r: seq<NormalizedRow>)
    ensures |r| == RowCount(batches)
  {
    if batches == [] then []
    else Projected(batches[..|batches| - 1], resolve, conv) + ProjectBatch(batches[|batches| - 1], resolve, conv)
  }

  /** The number of rows in all batches. */
  function RowCount<Row>(batches: seq<Batch<Row>>): (r: nat)
  {
    if batches == [] then 0 else RowCount(batches[..|batches| - 1]) + |batches[|batches| - 1].results|
  }

  /**
   * The collection loop: for each batch, for each of its rows, append the
   * row projected with the batch's field-mask paths.
   */
  method CollectRows<Row>(batches: seq<Batch<Row>>, resolve: (Row, string) -> WireValue,
                          conv: Converters) returns (finalOutput: seq<NormalizedRow>)
    ensures finalOutput == Projected(batches, resolve, conv)
  {
    finalOutput := [];
    var i := 0;
    while i < |batches|
      invariant 0 <= i <= |batches|
      invariant finalOutput == Projected(batches[..i], resolve, conv)
    {
      var batch := batches[i];
      var j := 0;
      while j < |batch.results|
        invariant 0 <= j <= |batch.results|
        invariant finalOutput == Projected(batches[..i], resolve, conv) + ProjectBatch(batch, resolve, conv)[..j]
      {
        finalOutput := finalOutput + [FormatOutputRow(batch.results[j], batch.fieldMaskPaths, resolve, conv)];
        j := j + 1;
      }
      assert batches[..i + 1][..i] == batches[..i];
      i := i + 1;
    }
    assert batches[..i] == batches;
  }

  /**
   * Row `j` of batch `b` lands at position RowCount(batches[..b]) + j, projected
   * with batch `b`'s own field-mask paths.
   */
  lemma {:induction false} ProjectedAt<Row>(batches: seq<Batch<Row>>, b: nat, j: nat,
                                            resolve: (Row, string) -> WireValue, conv: Converters)
    requires b < |batches| && j < |batches[b].results|
    ensures RowCount(batches[..b]) + j < |Projected(batches, resolve, conv)|
    ensures Projected(batches, resolve, conv)[RowCount(batches[..b]) + j]
            == FormatOutputRow(batches[b].results[j], batches[b].fieldMaskPaths, resolve, conv)
  {
    var n := |batches| - 1;
    var init := batches[..n];
    if b == n {
      assert batches[..b] == init;
    } else {
      assert init[..b] == batches[..b];
      assert init[b] == batches[b];
      ProjectedAt(init, b, j, resolve, conv);
    }
  }

  /**
   * `search`: the query built from the arguments goes to the transport with
   * the customer id; a transport failure comes back unchanged, otherwise the
   * projected rows of every streamed batch.
   */
  method Search<Row, E>(customerId: string, fields: seq<string>, resource: string,
                        conditions: seq<string>, orderings: seq<string>, limit: Limit,
                        searchStream: (string, string) -> Result<seq<Batch<Row>>, E>,
                        resolve: (Row, string) -> WireValue, conv: Converters)
    returns (r: Result<seq<NormalizedRow>, E>)
    ensures var sent := searchStream(customerId, QueryText(fields, resource, conditions, orderings, limit));
            sent.Failure? ==> r == Failure(sent.error)
    ensures var sent := searchStream(customerId, QueryText(fields, resource, conditions, orderings, limit));
            sent.Success? ==> r.Success? && r.value == Projected(sent.value, resolve, conv)
  {
    var query := BuildQuery(fields, resource, conditions, orderings, limit);
    var queryResult := searchStream(customerId, query);
    match queryResult {
      case Failure(e) =>
        r := Failure(e);
      case Success(batches) =>
        var rows := CollectRows(batches, resolve, conv);
        r := Success(rows);
    }
  }
}
