/** The `SKWG_D3D11_Pipeline` widget: the throttled sampler driven by `run`
    and the high-water marks updated by `draw`. */
module PipelineWidget {

  import opened Wrappers
  import opened DWords
  import opened Throttle
  import opened PipelineStats
  import opened DrawRules

  /** The sampler's part of the widget state: `last_update` and `pipeline`. */
  datatype SamplerState = SamplerState(lastUpdate: DWord, pipeline: Pipeline)

  const InitialSampler: SamplerState := SamplerState(0, EmptyPipeline)

  /** One call of `run` at clock reading `now` with the query's latest snapshot. */
  function Tick(st: SamplerState, now: DWord, stats: PipelineStatistics): (r: SamplerState)
    ensures r.lastUpdate == if Accepts(st.lastUpdate, now) then now else st.lastUpdate
    ensures forall id ::
              Log(r.pipeline, id) == Log(st.pipeline, id) + (if Accepts(st.lastUpdate, now) then [SampleOf(stats, id)] else [])
    ensures r == st <==> !Accepts(st.lastUpdate, now)
  {
    if Accepts(st.lastUpdate, now) then
      assert |Log(Ingest(st.pipeline, stats), Dispatches)| != |Log(st.pipeline, Dispatches)|;
      SamplerState(now, Ingest(st.pipeline, stats))
    else st
  }

  datatype TickInput = TickInput(now: DWord, stats: PipelineStatistics)

  /** Successive calls of `run`. */
  function Replay(st: SamplerState, ticks: seq<TickInput>): SamplerState
    decreases |ticks|
  {
    if ticks == [] then st
    else Replay(Tick(st, ticks[0].now, ticks[0].stats), ticks[1..])
  }

  /** How many of those calls pass the gate. */
  function AcceptedTicks(st: SamplerState, ticks: seq<TickInput>): nat
    decreases |ticks|
  {
    if ticks == [] then 0
    else
      (if Accepts(st.lastUpdate, ticks[0].now) then 1 else 0) +
      AcceptedTicks(Tick(st, ticks[0].now, ticks[0].stats), ticks[1..])
  }

  /** Over any run of calls, every history grows by exactly the number of
      accepted calls, and earlier samples are never altered. */
  lemma {:induction false} ReplayAppendsPerAcceptedTick(st: SamplerState, ticks: seq<TickInput>, id: SeriesId)
    ensures |Log(Replay(st, ticks).pipeline, id)| == |Log(st.pipeline, id)| + AcceptedTicks(st, ticks)
    ensures Log(st.pipeline, id) <= Log(Replay(st, ticks).pipeline, id)
    decreases |ticks|
  {
    if ticks != [] {
      var next := Tick(st, ticks[0].now, ticks[0].stats);
      ReplayAppendsPerAcceptedTick(next, ticks[1..], id);
    }
  }

  /** Starting from the widget's initial state all twelve histories stay the
      same length: the number of accepted calls. */
  lemma ReplayFromStartSynchronized(ticks: seq<TickInput>)
    ensures Synchronized(Replay(InitialSampler, ticks).pipeline)
    ensures forall id :: |Log(Replay(InitialSampler, ticks).pipeline, id)| == AcceptedTicks(InitialSampler, ticks)
  {
    forall id
      ensures |Log(Replay(InitialSampler, ticks).pipeline, id)| == AcceptedTicks(InitialSampler, ticks)
    {
      ReplayAppendsPerAcceptedTick(InitialSampler, ticks, id);
    }
  }

  class D3D11PipelineWidget {
    var lastUpdate: DWord
    var pipeline: Pipeline

    // The function-`static` high-water marks of `draw`; None until first run.
    var maxInvoke: Option<real>
    var maxVerts: Option<real>
    var maxPrims: Option<real>
    var maxRatio: Option<real>
    var maxFill: Option<real>

    function Sampler(): SamplerState
      reads this
    {
      SamplerState(lastUpdate, pipeline)
    }

    constructor ()
      ensures Sampler() == InitialSampler
      ensures maxInvoke == None && maxVerts == None && maxPrims == None
      ensures maxRatio == None && maxFill == None
    {
      lastUpdate := 0;
      pipeline := EmptyPipeline;
      maxInvoke, maxVerts, maxPrims, maxRatio, maxFill := None, None, None, None, None;
    }

    /** `run`: sample the snapshot into every history when the gate passes. */
    method Run(now: DWord, stats: PipelineStatistics)
      modifies this`lastUpdate, this`pipeline
      ensures Sampler() == Tick(old(Sampler()), now, stats)
      ensures Accepts(old(lastUpdate), now) ==>
        lastUpdate == now && pipeline == Ingest(old(pipeline), stats)
      ensures !Accepts(old(lastUpdate), now) ==>
        lastUpdate == old(lastUpdate) && pipeline == old(pipeline)
    {
      if lastUpdate < WrapSub(now, UpdateFreq) {
        pipeline := Ingest(pipeline, stats);
        lastUpdate := now;
      }
    }

    /** `draw`: the plots it issues and the marks it raises, given what each
        history reports. Each section runs only under its average gate. */
    method Draw(r: Readings) returns (plots: seq<Plot>)
      modifies this`maxInvoke, this`maxVerts, this`maxPrims, this`maxRatio, this`maxFill
      ensures maxInvoke == if VertexSectionShown(r) then Raise(old(maxInvoke), r.vertsInvoked.max) else old(maxInvoke)
      ensures maxVerts == if VertexSectionShown(r) then Raise(old(maxVerts), r.vertsInput.max) else old(maxVerts)
      ensures maxPrims == if VertexSectionShown(r) then Raise(old(maxPrims), r.primsInput.max) else old(maxPrims)
      ensures maxRatio == if RasterSectionShown(r) then Raise(old(maxRatio), r.fillRatio.max) else old(maxRatio)
      ensures maxFill == if RasterSectionShown(r) then Raise(old(maxFill), r.pixelsFilled.max) else old(maxFill)
      ensures |plots| == (if VertexSectionShown(r) then 3 else 0) + (if RasterSectionShown(r) then 2 else 0)
      ensures forall k :: 0 <= k < |plots| ==>
        plots[k].samples == SampleCount(|Log(pipeline, plots[k].series)|) && plots[k].samples <= Capacity
      ensures VertexSectionShown(r) ==>
        plots[0] == Plot(VertsInvoked, SampleCount(|pipeline.vertex.vertsInvoked|), r.vertsInvoked.min, maxInvoke.value) &&
        plots[1] == Plot(VertsInput, SampleCount(|pipeline.vertex.vertsInput|), r.vertsInput.min, maxVerts.value) &&
        plots[2] == Plot(PrimsInput, SampleCount(|pipeline.vertex.primsInput|), r.primsInput.min, maxPrims.value)
      ensures RasterSectionShown(r) ==>
        var o := if VertexSectionShown(r) then 3 else 0;
        plots[o] == Plot(FillRatio, SampleCount(|pipeline.raster.fillRatio|), r.fillRatio.min, maxRatio.value) &&
        plots[o + 1] == Plot(PixelsFilled, SampleCount(|pipeline.raster.pixelsFilled|), r.pixelsFilled.min, maxFill.value)
    {
      plots := [];
      if r.vertsInvoked.avg > 0.0 {
        maxInvoke := Raise(maxInvoke, r.vertsInvoked.max);
        var samples := SampleCount(|pipeline.vertex.vertsInvoked|);
        plots := plots + [Plot(VertsInvoked, samples, r.vertsInvoked.min, maxInvoke.value)];

        maxVerts := Raise(maxVerts, r.vertsInput.max);
        samples := SampleCount(|pipeline.vertex.vertsInput|);
        plots := plots + [Plot(VertsInput, samples, r.vertsInput.min, maxVerts.value)];

        maxPrims := Raise(maxPrims, r.primsInput.max);
        samples := SampleCount(|pipeline.vertex.primsInput|);
        plots := plots + [Plot(PrimsInput, samples, r.primsInput.min, maxPrims.value)];
      }
      if r.trianglesSubmitted.avg > 0.0 {
        var samples := SampleCount(|pipeline.raster.fillRatio|);
        maxRatio := Raise(maxRatio, r.fillRatio.max);
        plots := plots + [Plot(FillRatio, samples, r.fillRatio.min, maxRatio.value)];

        maxFill := Raise(maxFill, r.pixelsFilled.max);
        samples := SampleCount(|pipeline.raster.pixelsFilled|);
        plots := plots + [Plot(PixelsFilled, samples, r.pixelsFilled.min, maxFill.value)];
      }
    }
  }

  /** A client view: a fresh widget polled at any `now` and again 4 ms later
      (the clock wrapping if need be) records exactly one sample. At
      `now == 4` the first poll is the one the gate rejects; otherwise the
      second falls inside the spacing window. */
  method PollTwice(now: DWord, stats: PipelineStatistics) returns (w: D3D11PipelineWidget)
    ensures forall id :: |Log(w.pipeline, id)| == 1
  {
    w := new D3D11PipelineWidget();
    w.Run(now, stats);
    var later := ((now as int + 4) % Modulus) as DWord;
    w.Run(later, stats);
  }
}
