/** The read-side rules of `SKWG_D3D11_Pipeline::draw`: how many samples a
    plot shows, and the function-`static` high-water marks that fix each
    plot's vertical scale. */
module DrawRules {

  import opened Wrappers
  import opened PipelineStats

  /** `std::min(getUpdates(), getCapacity())`: the number of leading entries
      of a history handed to the plot. */
  function SampleCount(updates: nat): (n: nat)
    ensures n <= Capacity && n <= updates
    ensures updates <= Capacity ==> n == updates
    ensures Capacity <= updates ==> n == Capacity
  {
    if updates < Capacity then updates else Capacity
  }

  /** For a history, the plotted count tracks its length until the 600-entry
      buffer first fills and then stays at 600. */
  lemma SampleCountOfHistory(h: History, x: Sample)
    ensures SampleCount(|h|) <= SampleCount(|h + [x]|) <= SampleCount(|h|) + 1
    ensures SampleCount(|h|) == Capacity ==> SampleCount(|h + [x]|) == Capacity
    ensures SampleCount(|h|) < Capacity <==> |h| < Capacity
  {
  }

  /** `std::max(a, b)`, which returns `a` unless `a < b`. */
  function Max(a: real, b: real): (r: real)
    ensures r >= a && r >= b
    ensures r == a || r == b
  {
    if a < b then b else a
  }

  /** One execution of `static float m = getMax(); m = std::max(m, getMax());`:
      the static is seeded on first execution, then raised to the observation. */
  function Raise(mark: Option<real>, observed: real): (r: Option<real>)
    ensures r.Some? && r.value >= observed
    ensures mark.Some? ==> r.value >= mark.value
    ensures mark.Some? ==> r.value == mark.value || r.value == observed
    ensures mark.None? ==> r.value == observed
  {
    var seeded := if mark.Some? then mark.value else observed;
    Some(Max(seeded, observed))
  }

  /** The mark after the same line has run once per observation, in order.
      `D3D11PipelineWidget.Draw` applies `Raise` to a mark once on each call
      whose section is shown and leaves it unchanged otherwise, so after a run
      of draws a mark is `RaiseAll` of its starting value over the maxima
      observed on the draws that showed its section. After a non-empty run the
      mark is at least the latest observation. */
  function RaiseAll(mark: Option<real>, observations: seq<real>): (r: Option<real>)
    ensures observations == [] ==> r == mark
    ensures observations != [] ==> r.Some? && r.value >= observations[|observations| - 1]
    decreases |observations|
  {
    if observations == [] then mark
    else RaiseAll(Raise(mark, observations[0]), observations[1..])
  }

  /** The largest of a non-empty sequence of observations. */
  function SeqMax(observations: seq<real>): (m: real)
    requires observations != []
    ensures m in observations
    ensures forall k :: 0 <= k < |observations| ==> observations[k] <= m
  {
    if |observations| == 1 then observations[0]
    else Max(observations[0], SeqMax(observations[1..]))
  }

  /** A seeded mark ends at the larger of its value and every later observation. */
  lemma {:induction false} RaiseAllFrom(m: real, observations: seq<real>)
    requires observations != []
    ensures RaiseAll(Some(m), observations) == Some(Max(m, SeqMax(observations)))
    decreases |observations|
  {
    var rest := observations[1..];
    if rest != [] {
      RaiseAllFrom(Max(m, observations[0]), rest);
    }
  }

  /** Seeded from the first observed maximum, the mark is exactly the largest
      maximum observed so far. */
  lemma {:induction false} RaiseAllIsMax(observations: seq<real>)
    requires observations != []
    ensures RaiseAll(None, observations) == Some(SeqMax(observations))
    ensures RaiseAll(None, observations).value >= observations[|observations| - 1]
  {
    var rest := observations[1..];
    if rest != [] {
      RaiseAllFrom(observations[0], rest);
    }
  }

  /** A mark never decreases over any run of draws. */
  lemma {:induction false} RaiseAllNeverDecreases(m: real, observations: seq<real>)
    ensures RaiseAll(Some(m), observations).Some?
    ensures RaiseAll(Some(m), observations).value >= m
  {
    if observations != [] {
      RaiseAllFrom(m, observations);
    }
  }

  /** What a history reports through `getMin`, `getMax` and `getAvg`; these are
      computed inside `SK_ImGui_DataHistory` and enter the model as inputs. */
  datatype Aggregates = Aggregates(min: real, max: real, avg: real)

  /** The aggregates `draw` reads, one per history it consults. */
  datatype Readings = Readings(
    vertsInvoked: Aggregates, vertsInput: Aggregates, primsInput: Aggregates,
    trianglesSubmitted: Aggregates, fillRatio: Aggregates, pixelsFilled: Aggregates)

  /** The numeric arguments of one `PlotLines` call: which history, how many
      samples, and the vertical scale. */
  datatype Plot = Plot(series: SeriesId, samples: nat, scaleMin: real, scaleMax: real)

  /** The vertex section is drawn only when vertex invocations average above 0. */
  predicate VertexSectionShown(r: Readings)
  {
    r.vertsInvoked.avg > 0.0
  }

  /** The raster section is drawn only when submitted triangles average above 0. */
  predicate RasterSectionShown(r: Readings)
  {
    r.trianglesSubmitted.avg > 0.0
  }
}
