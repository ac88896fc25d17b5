/** The twelve sample histories of `SKWG_D3D11_Pipeline` and the batch that
    feeds one snapshot of the Direct3D 11 pipeline-statistics query into them.
    Each `SK_ImGui_DataHistory<float, 600>` is modelled as the append-only log
    of the values passed to its `addValue`. */
module PipelineStats {

  import opened Wrappers

  /** The `600` template argument of every history. */
  const Capacity: nat := 600

  /** The counters of a `D3D11_QUERY_DATA_PIPELINE_STATISTICS` snapshot. */
  datatype Counter =
    | IAVertices | IAPrimitives | VSInvocations | GSInvocations | GSPrimitives
    | CInvocations | CPrimitives | PSInvocations | HSInvocations | DSInvocations
    | CSInvocations

  /** One snapshot of those counters, as exact naturals. */
  datatype PipelineStatistics = PipelineStatistics(
    iaVertices: nat, iaPrimitives: nat, vsInvocations: nat, gsInvocations: nat,
    gsPrimitives: nat, cInvocations: nat, cPrimitives: nat, psInvocations: nat,
    hsInvocations: nat, dsInvocations: nat, csInvocations: nat)

  function Read(s: PipelineStatistics, c: Counter): nat
  {
    match c
    case IAVertices => s.iaVertices
    case IAPrimitives => s.iaPrimitives
    case VSInvocations => s.vsInvocations
    case GSInvocations => s.gsInvocations
    case GSPrimitives => s.gsPrimitives
    case CInvocations => s.cInvocations
    case CPrimitives => s.cPrimitives
    case PSInvocations => s.psInvocations
    case HSInvocations => s.hsInvocations
    case DSInvocations => s.dsInvocations
    case CSInvocations => s.csInvocations
  }

  /** A recorded value: a counter, or the fill ratio
      `100 * primitives / invocations` kept as its two operands (the float
      quotient, NaN or infinity when `invocations` is 0, is not evaluated). */
  datatype Sample = Count(n: nat) | Ratio(primitives: nat, invocations: nat)

  type History = seq<Sample>

  datatype VertexStage = VertexStage(
    vertsInvoked: History, vertsInput: History, primsInput: History,
    gsInvoked: History, gsOutput: History)

  datatype TessellationStage = TessellationStage(hull: History, domain: History)

  datatype RasterStage = RasterStage(
    fillRatio: History, trianglesSubmitted: History, trianglesFilled: History,
    pixelsFilled: History)

  datatype ComputeStage = ComputeStage(dispatches: History)

  /** The `pipeline` member: the histories grouped by pipeline stage. */
  datatype Pipeline = Pipeline(
    vertex: VertexStage, tessellation: TessellationStage, raster: RasterStage,
    compute: ComputeStage)

  const EmptyPipeline: Pipeline :=
    Pipeline(VertexStage([], [], [], [], []), TessellationStage([], []),
             RasterStage([], [], [], []), ComputeStage([]))

  /** Names of the twelve histories. */
  datatype SeriesId =
    | VertsInvoked | VertsInput | PrimsInput | GsInvoked | GsOutput
    | Hull | Domain
    | FillRatio | TrianglesSubmitted | TrianglesFilled | PixelsFilled
    | Dispatches

  function Log(p: Pipeline, id: SeriesId): History
  {
    match id
    case VertsInvoked => p.vertex.vertsInvoked
    case VertsInput => p.vertex.vertsInput
    case PrimsInput => p.vertex.primsInput
    case GsInvoked => p.vertex.gsInvoked
    case GsOutput => p.vertex.gsOutput
    case Hull => p.tessellation.hull
    case Domain => p.tessellation.domain
    case FillRatio => p.raster.fillRatio
    case TrianglesSubmitted => p.raster.trianglesSubmitted
    case TrianglesFilled => p.raster.trianglesFilled
    case PixelsFilled => p.raster.pixelsFilled
    case Dispatches => p.compute.dispatches
  }

  /** The counter recorded verbatim by each history; the fill-ratio history
      records a quotient instead and has none. */
  function SourceCounter(id: SeriesId): (r: Option<Counter>)
    ensures r.None? <==> id == FillRatio
    ensures r.Some? ==> SeriesOf(r.value) == id
  {
    match id
    case TrianglesSubmitted => Some(CInvocations)
    case PixelsFilled => Some(PSInvocations)
    case TrianglesFilled => Some(CPrimitives)
    case Hull => Some(HSInvocations)
    case Domain => Some(DSInvocations)
    case VertsInput => Some(IAVertices)
    case PrimsInput => Some(IAPrimitives)
    case VertsInvoked => Some(VSInvocations)
    case GsInvoked => Some(GSInvocations)
    case GsOutput => Some(GSPrimitives)
    case Dispatches => Some(CSInvocations)
    case FillRatio => None
  }

  /** The history each counter is recorded in. */
  function SeriesOf(c: Counter): SeriesId
  {
    match c
    case CInvocations => TrianglesSubmitted
    case PSInvocations => PixelsFilled
    case CPrimitives => TrianglesFilled
    case HSInvocations => Hull
    case DSInvocations => Domain
    case IAVertices => VertsInput
    case IAPrimitives => PrimsInput
    case VSInvocations => VertsInvoked
    case GSInvocations => GsInvoked
    case GSPrimitives => GsOutput
    case CSInvocations => Dispatches
  }

  /** Every counter is recorded verbatim in exactly one history, and only the
      fill-ratio history records no counter verbatim. */
  lemma SeriesOfInvertsSourceCounter(c: Counter, id: SeriesId)
    ensures SourceCounter(SeriesOf(c)) == Some(c)
    ensures SourceCounter(id) == Some(c) <==> id == SeriesOf(c)
    ensures SourceCounter(id) == None <==> id == FillRatio
  {
  }

  /** The value one snapshot contributes to a history: the fixed table of
      counters, plus the fill ratio built from `CPrimitives` over `CInvocations`. */
  function SampleOf(s: PipelineStatistics, id: SeriesId): (r: Sample)
    ensures id == FillRatio ==> r == Ratio(s.cPrimitives, s.cInvocations)
    ensures id != FillRatio ==> r.Count?
    ensures forall c :: SeriesOf(c) == id ==> r == Count(Read(s, c))
  {
    match SourceCounter(id)
    case Some(c) => Count(Read(s, c))
    case None => Ratio(s.cPrimitives, s.cInvocations)
  }

  /** The batch of `addValue` calls of one accepted tick, in the code's order. */
  function Ingest(p: Pipeline, s: PipelineStatistics): (q: Pipeline)
    ensures forall id :: Log(q, id) == Log(p, id) + [SampleOf(s, id)]
  {
    var fill := p.raster.fillRatio + [Ratio(s.cPrimitives, s.cInvocations)];
    var submitted := p.raster.trianglesSubmitted + [Count(s.cInvocations)];
    var pixels := p.raster.pixelsFilled + [Count(s.psInvocations)];
    var filled := p.raster.trianglesFilled + [Count(s.cPrimitives)];
    var hull := p.tessellation.hull + [Count(s.hsInvocations)];
    var domain := p.tessellation.domain + [Count(s.dsInvocations)];
    var vertsInput := p.vertex.vertsInput + [Count(s.iaVertices)];
    var primsInput := p.vertex.primsInput + [Count(s.iaPrimitives)];
    var vertsInvoked := p.vertex.vertsInvoked + [Count(s.vsInvocations)];
    var gsInvoked := p.vertex.gsInvoked + [Count(s.gsInvocations)];
    var gsOutput := p.vertex.gsOutput + [Count(s.gsPrimitives)];
    var dispatches := p.compute.dispatches + [Count(s.csInvocations)];
    Pipeline(
      VertexStage(vertsInvoked, vertsInput, primsInput, gsInvoked, gsOutput),
      TessellationStage(hull, domain),
      RasterStage(fill, submitted, filled, pixels),
      ComputeStage(dispatches))
  }

  /** After a batch, each counter's value is the newest entry of the history
      that records it verbatim. */
  lemma IngestRoutesCounters(p: Pipeline, s: PipelineStatistics, c: Counter)
    ensures var q := Ingest(p, s);
      |Log(q, SeriesOf(c))| == |Log(p, SeriesOf(c))| + 1 &&
      Log(q, SeriesOf(c))[|Log(p, SeriesOf(c))|] == Count(Read(s, c))
  {
  }

  /** The fill ratio is recorded on every batch, also when `CInvocations` is 0. */
  lemma IngestRecordsRatioWithoutGuard(p: Pipeline, s: PipelineStatistics)
    ensures Log(Ingest(p, s), FillRatio) == Log(p, FillRatio) + [Ratio(s.cPrimitives, s.cInvocations)]
  {
  }

  /** All twelve histories have received the same number of values. */
  predicate Synchronized(p: Pipeline)
  {
    forall id :: |Log(p, id)| == |Log(p, VertsInvoked)|
  }

  lemma EmptyPipelineSynchronized()
    ensures Synchronized(EmptyPipeline)
    ensures forall id :: Log(EmptyPipeline, id) == []
  {
  }

  /** A batch keeps the histories in step: each grows by exactly one value. */
  lemma IngestKeepsSynchronized(p: Pipeline, s: PipelineStatistics)
    requires Synchronized(p)
    ensures Synchronized(Ingest(p, s))
    ensures |Log(Ingest(p, s), VertsInvoked)| == |Log(p, VertsInvoked)| + 1
  {
  }
}
