/** The token throughput series: one data point per priced response while a
    session is active, with running input/output totals since the session began. */
module Throughput {
  import opened Ledger

  /** Running input and output token totals (`cumulativeTokens`). */
  datatype Totals = Totals(input: int, output: int)

  const NoTokens: Totals := Totals(0, 0)

  /** One sample. The elapsed time is kept in integer milliseconds. */
  datatype DataPoint = DataPoint(
    timestamp: int,
    elapsedMs: int,
    inputTokens: int,
    outputTokens: int,
    cumulativeInput: int,
    cumulativeOutput: int)

  /** The running totals together with the samples taken so far. */
  datatype Track = Track(cumulative: Totals, points: seq<DataPoint>)

  /** Appends the sample for delta `d` arriving at `now` in a session that began at `start`. */
  function Record(t: Track, start: int, d: TokenCounts, now: int): (r: Track)
    ensures |r.points| == |t.points| + 1
    ensures r.points[..|t.points|] == t.points
    ensures var p := r.points[|t.points|];
      && p.timestamp == now
      && p.elapsedMs == now - start
      && p.inputTokens == d.audioInputTokens + d.textInputTokens
      && p.outputTokens == d.audioOutputTokens + d.textOutputTokens
      && p.cumulativeInput == t.cumulative.input + p.inputTokens
      && p.cumulativeOutput == t.cumulative.output + p.outputTokens
      && r.cumulative == Totals(p.cumulativeInput, p.cumulativeOutput)
  {
    var totalInput := d.audioInputTokens + d.textInputTokens;
    var totalOutput := d.audioOutputTokens + d.textOutputTokens;
    var cumulative := Totals(t.cumulative.input + totalInput, t.cumulative.output + totalOutput);
    Track(cumulative,
          t.points + [DataPoint(now, now - start, totalInput, totalOutput,
                                cumulative.input, cumulative.output)])
  }

  function SumInput(ps: seq<DataPoint>): int
  {
    if ps == [] then 0 else SumInput(ps[..|ps| - 1]) + ps[|ps| - 1].inputTokens
  }

  function SumOutput(ps: seq<DataPoint>): int
  {
    if ps == [] then 0 else SumOutput(ps[..|ps| - 1]) + ps[|ps| - 1].outputTokens
  }

  /** The running totals are the sums of the per-response counts, and every
      sample's cumulative fields are the sums up to and including that sample. */
  ghost predicate Consistent(t: Track)
  {
    && t.cumulative == Totals(SumInput(t.points), SumOutput(t.points))
    && forall i :: 0 <= i < |t.points| ==>
         && t.points[i].cumulativeInput == SumInput(t.points[..i + 1])
         && t.points[i].cumulativeOutput == SumOutput(t.points[..i + 1])
  }

  lemma EmptyIsConsistent()
    ensures Consistent(Track(NoTokens, []))
  {
  }

  /** Recording a sample keeps the totals and the samples consistent. */
  lemma RecordKeepsConsistent(t: Track, start: int, d: TokenCounts, now: int)
    requires Consistent(t)
    ensures Consistent(Record(t, start, d, now))
  {
    var r := Record(t, start, d, now);
    var n := |t.points|;
    assert r.points[..n] == t.points;
    assert r.points[..n + 1] == r.points;
    forall i | 0 <= i < n
      ensures r.points[i].cumulativeInput == SumInput(r.points[..i + 1])
      ensures r.points[i].cumulativeOutput == SumOutput(r.points[..i + 1])
    {
      assert r.points[..i + 1] == t.points[..i + 1];
    }
  }
}
