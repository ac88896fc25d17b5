# SKWG_D3D11_Pipeline sampler, modelled in Dafny

This project models the Direct3D 11 pipeline-statistics widget of Special K
(`src/widgets/d3d11_pipeline_widget.cpp`). The model covers its logic, not its
rendering:

- **The throttle in `run`.** `last_update` and `update_freq = 4` are unsigned
  32-bit milliseconds. A call samples exactly when
  `last_update < dwNow - update_freq`, with the subtraction wrapping modulo
  2^32. An accepted call stores `last_update = dwNow`.
- **The ingestion batch.** An accepted call appends one value to each of the
  twelve `SK_ImGui_DataHistory<float, 600>` members of `pipeline`. Each member
  gets a fixed counter of the query snapshot. The fill-ratio history gets
  `100 * CPrimitives / CInvocations` instead.
- **The read-side rules of `draw`.** Each plot shows `min(updates, capacity)`
  samples. Five function-`static` high-water marks are seeded on first use and
  then raised with `std::max`. The vertex section and the raster section are
  each drawn only when one history's average is above 0.

Modules:

- `DWords` (`dwords.dfy`): the `DWORD` type, as a bounded integer newtype with
  explicit wrap-around subtraction.
- `Throttle` (`throttle.dfy`): the gate and its edge cases. It also gives a
  wrap-safe reference gate to compare against.
- `PipelineStats` (`pipeline_stats.dfy`): the counter snapshot and the twelve
  histories as append-only logs grouped by stage. It holds the batch `Ingest`
  and the counter-to-history table.
- `DrawRules` (`draw_rules.dfy`): the plotted sample count, the high-water
  mark update and the section gates.
- `PipelineWidget` (`widget.dfy`): the widget as a class. `Run` and `Draw`
  update its fields in place. The pure `Tick` and `Replay` functions specify
  `Run` over one call and over any run of calls.
- `Wrappers` (`wrappers.dfy`): `Option`, which stands for a function-`static`
  that has not been initialised yet.

## Edge-case behaviour of the gate

- **The gate is strict.** Once the clock reads at least 4, two samples lie
  strictly more than 4 ms apart. A call exactly 4 ms after a sample is
  rejected (`Throttle.Cadence`).
- **Below a reading of 4, a sample at or before `now` imposes no spacing.**
  For example, a call 1 ms after a sample at 1 is accepted
  (`Throttle.SmallClockExamples`). Across a wrap the gate spaces like the
  wrap-safe one: a sample at 0xFFFFFFFF still blocks a reading of 2
  (`Throttle.BelowFourCharacterised`).
- **The gate is not wrap-safe.** It compares `last_update` with `now - 4`,
  not `now - last_update` with 4. `Throttle.ElapsedExceeds` is the wrap-safe
  reference gate.
  - After `timeGetTime` wraps, every reading with `4 <= now < last_update`
    is rejected (`Throttle.StallAfterWrap`). Only a
    reading below 4 or a reading a full clock cycle (about 49.7 days) later
    is accepted again.
  - A sample stored at 0xFFFFFFFF is never followed by another one
    (`Throttle.PermanentStall`). A sample stored at 0xFFFFFFFE is followed
    by one only if `run` happens to be called at exactly 3 ms
    (`Throttle.NearPermanentStall`).
  - The two gates agree when the clock reads at least 4 and no wrap lies
    between the two readings (`Throttle.AgreesWithoutWrap`). Below a reading
    of 4 they can disagree without any wrap.
- **No zero guard on the fill ratio.** The fill ratio is recorded even when
  `CInvocations` is 0 (`PipelineStats.IngestRecordsRatioWithoutGuard`).

## Model

| member | source | states |
|---|---|---|
| `DWords.WrapSub` | src/widgets/d3d11_pipeline_widget.cpp:46-48 | `DWORD` subtraction is the integer difference, plus 2^32 when that difference is negative |
| `Throttle.Accepts` | src/widgets/d3d11_pipeline_widget.cpp:48 | the gate `last_update < dwNow - update_freq`: for `now >= 4`, accepted iff `now - last_update > 4` as integers; for `now < 4`, accepted iff `last_update < now + 2^32 - 4` |
| `Throttle.AcceptsIffElapsed` | src/widgets/d3d11_pipeline_widget.cpp:48 | the first case of `Accepts`' contract: for `now >= 4`, a call is accepted iff `now - last_update > 4`, so a `last_update` later than `now` is always rejected |
| `Throttle.AcceptsWhenClockSmall` | src/widgets/d3d11_pipeline_widget.cpp:48 | the second case of `Accepts`' contract: for `now < 4` the subtraction wraps, so every `last_update` below 2^32 - 4 is accepted |
| `Throttle.FirstCallAccepts` | src/widgets/d3d11_pipeline_widget.cpp:272-275 | from `last_update = 0`, the first call is accepted at every `now` except `now == 4` |
| `Throttle.Cadence` | src/widgets/d3d11_pipeline_widget.cpp:48-72 | after a sample at `t >= 4`, every call at `t` to `t + 4` is rejected; `t + 5` is accepted when it does not wrap |
| `Throttle.AgreesWithoutWrap` | src/widgets/d3d11_pipeline_widget.cpp:48 | when `last_update <= now` and `now >= 4`, the code's gate is equivalent to the wrap-safe test `now - last_update > 4` |
| `Throttle.StallAfterWrap` | src/widgets/d3d11_pipeline_widget.cpp:48 | after a clock wrap, every reading with `4 <= now < last_update` is rejected, although the wrap-safe gate accepts it |
| `Throttle.SmallClockExamples` | src/widgets/d3d11_pipeline_widget.cpp:48 | a call 1 ms after a sample at 1 is accepted although the wrap-safe gate rejects it, and a reading of 0 after a sample at 0xFFFFFFF0 is accepted |
| `Throttle.BelowFourCharacterised` | src/widgets/d3d11_pipeline_widget.cpp:48 | for `now < 4`, the gate accepts iff `last_update <= now` or the wrap-safe gate accepts |
| `Throttle.BelowFourExamples` | src/widgets/d3d11_pipeline_widget.cpp:48 | a sample at 0xFFFFFFFF blocks a reading of 2; one at 0xFFFFFFFC blocks 0, and one at 0xFFFFFFFB does not |
| `Throttle.PermanentStall` | src/widgets/d3d11_pipeline_widget.cpp:48 | after a sample stored at 0xFFFFFFFF no reading ever passes the gate, while the wrap-safe gate accepts every reading from 4 to 0xFFFFFFFE |
| `Throttle.NearPermanentStall` | src/widgets/d3d11_pipeline_widget.cpp:48 | after a sample stored at 0xFFFFFFFE the gate accepts exactly one reading, 3 |
| `Throttle.StallAfterWrapExample` | src/widgets/d3d11_pipeline_widget.cpp:48 | concrete case: `last_update = 0xFFFFFFFE`, `now = 100`; 102 ms have elapsed, yet the call is rejected |
| `PipelineStats.SourceCounter` | src/widgets/d3d11_pipeline_widget.cpp:55-70 | the table of which counter each history records verbatim: every history except `fill_ratio` has one, and `SeriesOf` maps it back to that history |
| `PipelineStats.SampleOf` | src/widgets/d3d11_pipeline_widget.cpp:53-70 | the value one snapshot gives a history: the `CPrimitives`/`CInvocations` ratio for `fill_ratio`; for every other history, the value of the counter routed to it |
| `PipelineStats.SeriesOfInvertsSourceCounter` | src/widgets/d3d11_pipeline_widget.cpp:55-70 | the counter-to-history table is a bijection: each of the 11 counters is recorded verbatim in exactly one history, and the fill-ratio history is the only one that records none |
| `PipelineStats.Ingest` | src/widgets/d3d11_pipeline_widget.cpp:53-70 | one batch appends exactly one value to each of the twelve histories: the counter given by the fixed table, or the ratio for `fill_ratio` |
| `PipelineStats.IngestRoutesCounters` | src/widgets/d3d11_pipeline_widget.cpp:55-70 | after a batch, each counter's value is the newest entry of the history that records it verbatim |
| `PipelineStats.IngestRecordsRatioWithoutGuard` | src/widgets/d3d11_pipeline_widget.cpp:53-54 | the fill ratio `CPrimitives / CInvocations` is appended on every batch, including when `CInvocations` is 0 |
| `PipelineStats.EmptyPipelineSynchronized` | src/widgets/d3d11_pipeline_widget.cpp:277-302 | the twelve histories start empty and so start the same length |
| `PipelineStats.IngestKeepsSynchronized` | src/widgets/d3d11_pipeline_widget.cpp:53-70 | a batch keeps the twelve histories the same length, each one value longer |
| `DrawRules.SampleCount` | src/widgets/d3d11_pipeline_widget.cpp:98-100 | the plotted count is at most 600 and at most the update count; it equals the update count until the buffer fills, and then equals 600 |
| `DrawRules.SampleCountOfHistory` | src/widgets/d3d11_pipeline_widget.cpp:98-100 | for each of the five plots: one more sample raises the plotted count by at most one; once the count has reached 600 it stays there |
| `DrawRules.Max` | src/widgets/d3d11_pipeline_widget.cpp:88 | `std::max` returns one of its two arguments, and that argument is at least as large as both |
| `DrawRules.Raise` | src/widgets/d3d11_pipeline_widget.cpp:87-88 | the first execution seeds the mark with the observed `getMax()`; each execution leaves it at least the observation and never below its old value |
| `DrawRules.RaiseAll` | src/widgets/d3d11_pipeline_widget.cpp:87-88 | line 88 executed once per draw whose section is shown: with no such draw the mark is unchanged; after one or more, it is at least the latest observed `getMax()` |
| `DrawRules.RaiseAllFrom` | src/widgets/d3d11_pipeline_widget.cpp:87-88 | for each of the five marks: a seeded mark, after any run of draws, is the larger of its old value and every observed maximum |
| `DrawRules.RaiseAllIsMax` | src/widgets/d3d11_pipeline_widget.cpp:87-88 | for each of the five marks: a mark seeded on the first draw is exactly the largest maximum observed so far |
| `DrawRules.RaiseAllNeverDecreases` | src/widgets/d3d11_pipeline_widget.cpp:87-88 | for each of the five marks: a mark never decreases across successive draws |
| `DrawRules.VertexSectionShown` | src/widgets/d3d11_pipeline_widget.cpp:85 | the vertex section's gate, `verts_invoked.getAvg() > 0`; it has no contract of its own, and `Draw`'s contract uses it |
| `DrawRules.RasterSectionShown` | src/widgets/d3d11_pipeline_widget.cpp:183 | the raster section's gate, `triangles_submitted.getAvg() > 0`; it has no contract of its own, and `Draw`'s contract uses it |
| `PipelineWidget.Tick` | src/widgets/d3d11_pipeline_widget.cpp:44-74 | one `run`: accepted iff the gate passes; then `last_update = now` and every history gains its snapshot value; a rejected call leaves the whole state unchanged |
| `PipelineWidget.ReplayAppendsPerAcceptedTick` | src/widgets/d3d11_pipeline_widget.cpp:53-72 | over any run of calls, each history grows by exactly the number of accepted calls and its earlier samples are kept |
| `PipelineWidget.ReplayFromStartSynchronized` | src/widgets/d3d11_pipeline_widget.cpp:275-302 | from the initial state, all twelve histories always hold exactly as many samples as there were accepted calls |
| `PipelineWidget.D3D11PipelineWidget.constructor` | src/widgets/d3d11_pipeline_widget.cpp:271-302 | a new widget has `last_update = 0`, empty histories and uninitialised high-water marks |
| `PipelineWidget.D3D11PipelineWidget.Run` | src/widgets/d3d11_pipeline_widget.cpp:44-74 | updates `last_update` and `pipeline` as `Tick` says, and nothing else |
| `PipelineWidget.D3D11PipelineWidget.Draw` | src/widgets/d3d11_pipeline_widget.cpp:76-257 | the vertex section (3 plots, marks `max_invoke`, `max_verts`, `max_prims`) runs iff the `verts_invoked` average is > 0; the raster section (2 plots, marks `max_ratio`, `max_fill`) runs iff the `triangles_submitted` average is > 0; each plot shows `min(updates, 600)` samples and is scaled to its mark; marks outside a drawn section are unchanged |
| `PipelineWidget.PollTwice` | src/widgets/d3d11_pipeline_widget.cpp:44-74 | a new widget polled at any `now` and again 4 ms later, with wrap-around, records exactly one sample in every history |

## Left out

- The internals of `SK_ImGui_DataHistory`: running min/max/average, eviction and the write offset. Its header `SpecialK/widgets/widget.h` is not part of this model. Each history is its append-only log, and `getUpdates()` is taken to be the log's length. `getMin`, `getMax` and `getAvg` enter `Draw` as inputs (`DrawRules.Aggregates`).
- The float value of the fill ratio. It is kept as its two operands, `Sample.Ratio(CPrimitives, CInvocations)`. The float quotient, including NaN for 0/0, is not evaluated. The unexplained second `addValue` argument is not modelled.
- The `UINT64` to `float` conversions of lines 53-70. Counters are exact naturals, so large counts are recorded without the rounding the code applies. The same goes for the float comparisons in `std::max` and in the `> 0` gates, and for NaN: marks and averages are reals.
- `getOffset()` and the overlay text passed to `PlotLines`. The offset is internal to the history. The text is `sprintf_s`/`SK_CountToString` formatting.
- HSV colour arithmetic, font-size layout, and the ImGui calls `PlotLines`, `PushStyleColor` and `GetIO`. These are rendering.
- `timeGetTime()` and the query source `SK::DXGI::pipeline_stats_d3d11`. These are I/O. `Run` takes the clock reading and the snapshot as parameters.
- The widget constructor's docking and registration, and `OnConfig`, which is empty. These are glue.
- `src/widgets/frame_pacing.cpp`. It is window layout with no logic of its own.
- C++ function-`static` storage is process-wide. The model keeps the five marks as fields of the one widget object, which is the same thing for this singleton widget.
