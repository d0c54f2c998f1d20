# Motion Studio and group execution: a verified model

This Dafny project models two parts of the motion system and proves what they promise.

**Motion Studio.** A project is a list of layers. A layer has sparse samples per axis on a 20 ms
grid, and point curves of order 1, 3 or 5 that draw some of them. The model composes layers into
one motion, finds conflicts between them, decides which stretches of time playback owns, records
on top of playback, merges layers, fits a curve to a recording within a tolerance, edits layers,
saves projects in several files, and keeps a cache of what it has found out.

**Group execution.** One coordinator runs cycles of motion on one to eight PCs: all arm, all start
together, all complete, all settle, and so on. It estimates their clock offsets from four
timestamps an exchange, with the offset and delay of section 8 of RFC 5905. Beside it, the PC with
the MIDI surface lends it to one PC at a time.

## How to read it

| files | subject |
|---|---|
| `MotionTypes`, `Sorting` | shared data, sorting as Python's `sorted` does it |
| `Timeline`, `LayerConflicts`, `ConflictTicks`, `Rendering`, `RenderedProject`, `Ownership` | segments, conflicts, composition, owned spans |
| `Recording`, `Merging`, `CurveShift`, `GatherCurves`, `CurveMerging`, `MergedCurves`, `MergeStart`, `RedrawnMotion`, `JoinedCurve`, `MergedAxes`, `BridgedGaps`, `MergeSuccess`, `MergeBridge`, `FilledGaps`, `FilledMerge` | overdubbing, merging, with curves |
| `CurveEngine`, `CurveShapes`, `CurveScaling` | handles, segments, rendering of point curves; what they draw between the points |
| `ChordSelection`, `FitErrors`, `SliceCheck`, `Pruning`, `CurveFit`, `StraightFit`, `LinearSolver` | the curve fit |
| `EditState`, `EditFrames`, `LayerEdit`, `RangeEdit`, `CurveTransform`, `CurveOverlaps`, `EditLayer`, `EditEffects`, `EditKnots`, `EditSamples`, `AxisEffects`, `ScaleLaws`, `EditRepeat`, `EditWorkbench`, `AxisFit` | layer editing |
| `LayerValidation`, `CurveFrames` | checks, frames drawn again from curves |
| `Composition`, `LayerCommands` | the composition cache and the commands that change layers |
| `ProjectStore` | saving in steps, loading |
| `TriggerSync`, `GroupExecution`, `Coordination`, `Lockstep`, `StopBounds`, `Continuations`, `Failures` | clock offsets, the barrier, the coordinator, whole runs, what a stop is worth, failures |
| `MidiRelay`, `MidiLease`, `MidiEffects` | the leased surface |

Code that changes things in place is modelled by classes and loops, each proved to do what a
function says; the promises are then proved of those functions. Some terms:

- Time is counted in 20 ms ticks, values are reals. `FirstAt(frames, axis, tick)` is the recorded
  value; `Motion` is what an axis does, told without reference to the program.
- A curve is *in step* with the frames (`InStep`, `Consistent`) when drawing it gives exactly the
  values that the frames have.
- Where a proof needs only some facts of a complicated function, the function is passed as a
  value: a `Shape` draws between two points, a `Render` turns points into samples.
- In `Lockstep` a run is a list of worlds; messages that were sent stay in a set, and any of them
  may be handed over at any time, repeatedly or never.

Some things differ from what the comments in the program say, or from what one would expect:

- Merging keeps the motion, but for two cases. An axis that has a value at tick 0 alone, later another
  one, and does not start from zero loses that value (`Merging.MergeMayChangeMotion`). And where an
  axis has several curves, they become one, which bridges what was held between them
  (`MergeBridge.MergeMayBridge`). `MergedAxes.MergedLayerDecides` says exactly when the merged layer
  moves as its sources do, and `BridgedGaps.StraightAxisDecides` what that means for straight curves.
- A merged layer has no frame at tick 0, so a curve that starts there and is alone on its axis is out of
  step afterwards (`MergeStart.MergeMayLoseStart`), and no other is (`MergedCurves.MergingKeepsCurves`).
- `stop after this cycle` may let one more cycle run, though never more than one
  (`Lockstep.AtMostOneMore`). `Continuations.RequestedStopDecides` and
  `Continuations.CommandedStopDecides` say exactly when it does, for a stop that the operator requests
  at the coordinator and for one that comes from another PC; `Continuations.StopWhileSettling` shows
  that it happens.
- A refused command that is cancelled while the clocks are being asked for before the first
  initialization may still be followed by a cycle, and at other times not (`Failures.RefusalDecides`).
- A fit does not always find the fewest points: a recording near its own chord may keep more than two
  (`StraightFit.ChordIsNotEnough`), though with attempts left none of those that pruning keeps can be
  taken out alone (`CurveFit.NothingToSpare`).
- A smooth point whose outgoing handle has no length takes the slope between its neighbours, whatever
  its incoming handle says (`CurveShapes.ShortHandle`).

## Model

| member | source | states |
|---|---|---|
| Timeline.SeriesSegments | src/motion_control_studio/motion_studio/motion_studio/timeline.py:88-106 | A series of samples is cut wherever one and a half periods pass without a sample, and nowhere else |
| Timeline.SampleIsLookup | src/motion_control_studio/motion_studio/motion_studio/timeline.py:117-133 | On the 20 ms grid, sampling a segment interpolates nothing: it finds the recorded value, or none |
| Timeline.SegmentsLookup | src/motion_control_studio/motion_studio/motion_studio/timeline.py:88-141 | Cutting into segments loses and invents no value |
| Timeline.SupplyIsLookup | src/motion_control_studio/motion_studio/motion_studio/timeline.py:66-141 | What a layer supplies for an axis at a tick is its first recorded value there |
| LayerConflicts.ListConflicts | src/motion_control_studio/motion_studio/motion_studio/timeline.py:144-186 | The nested loops list the shared ticks of every pair of enabled layers, axis by axis, segment by segment |
| LayerConflicts.NoConflictsMeansConflictFree | src/motion_control_studio/motion_studio/motion_studio/timeline.py:144-186 | No conflict is listed exactly when no two enabled layers have a value for one axis at one tick |
| ConflictTicks.ListedIsConflict | src/motion_control_studio/motion_studio/motion_studio/timeline.py:144-186 | Every conflict on the list names two enabled layers that share each of its ticks, and neither the tick before nor the one after |
| ConflictTicks.SharedIsListed | src/motion_control_studio/motion_studio/motion_studio/timeline.py:144-186 | Every tick that two enabled layers share lies in a conflict on the list that names them |
| Rendering.RenderProject | src/motion_control_studio/motion_studio/motion_studio/timeline.py:203-261 | Rendering is refused when there are conflicts; otherwise it gives a frame for every tick, with all selected axes |
| Rendering.RenderedIsMotion | src/motion_control_studio/motion_studio/motion_studio/timeline.py:203-261 | For layers without conflicts, what is rendered is what the layers mean: the recorded value; before the first one the initial value or that first value; else the position of the tick before |
| RenderedProject.RenderingRefuses | src/motion_control_studio/motion_studio/motion_studio/timeline.py:203-261 | Rendering is refused exactly when some axis moves and two enabled layers of the project have a value for one axis at one tick |
| RenderedProject.RenderingGives | src/motion_control_studio/motion_studio/motion_studio/timeline.py:203-261 | The frames run from tick 1 to the last tick of any enabled layer, at least one; each has exactly the axes asked for, or those of the enabled layers if none is, where the motion has them |
| Rendering.SupplierIsUnique | src/motion_control_studio/motion_studio/motion_studio/timeline.py:203-261 | Without conflicts, a layer that has a value is the one that supplies it |
| Rendering.RenderingIgnoresOrder | src/motion_control_studio/motion_studio/motion_studio/timeline.py:203-261 | Without conflicts, the order of the layers does not matter: permuted layers have no conflicts either and render the same frames |
| Ownership.MergeRanges | src/motion_control_studio/motion_studio/motion_studio/timeline.py:319-336 | Spans that overlap or touch are joined: the same ticks are covered, by spans with free ticks between them |
| Ownership.SpanIsOwned | src/motion_control_studio/motion_studio/motion_studio/timeline.py:264-304 | The span of a layer on an axis is from its first to its last value, held gaps included |
| Ownership.PlaybackOwnership | src/motion_control_studio/motion_studio/motion_studio/timeline.py:264-304 | The table has the axes of the enabled layers, and a tick is in the spans of an axis exactly when some enabled layer owns it |
| Ownership.TableAnswers | src/motion_common/motion_common/axis_ownership.py:36-73 | The one ownership test answers for every axis and tick, also for axes that the table does not name |
| Recording.DropOwnedValues | src/motion_control_studio/motion_studio/motion_studio/recording_session.py:360-376 | Exactly the values that playback owns at the tick are dropped |
| Recording.WithoutOwnedValues | src/motion_control_studio/motion_studio/motion_studio/recording_session.py:407-431 | The last net: every frame without owned values, or nothing at all if no value is left |
| Recording.RecordingSession.Start | src/motion_control_studio/motion_studio/motion_studio/recording_session.py:37-83 | Overdubbing takes over the ownership of playback, plain recording takes over none; a refused start changes nothing |
| Recording.RecordingSession.RecordTick | src/motion_control_studio/motion_studio/motion_studio/recording_session.py:378-405 | Each tick adds the next frame, with what MIDI controls, the mapping allows and playback leaves free |
| Recording.RecordsWhatIsFree | src/motion_control_studio/motion_studio/motion_studio/recording_session.py:360-405 | Over playback, a value is recorded exactly if MIDI controls it, the mapping has its axis and no enabled layer owns the axis at that tick |
| Recording.RecordingSession.Finish | src/motion_control_studio/motion_studio/motion_studio/recording_session.py:433-489 | What was recorded becomes one more enabled layer, unless nothing was; over a project without conflicts it makes none |
| Recording.AddingLayer | src/motion_control_studio/motion_studio/motion_studio/timeline.py:144-186 | A layer keeps a project free of conflicts exactly when it has no value where an enabled layer has one |
| Recording.OverdubNeverConflicts | src/motion_control_studio/motion_studio/motion_studio/recording_session.py:360-431 | A layer recorded over playback never conflicts with it |
| Recording.OverdubKeepsPlayback | src/motion_control_studio/motion_studio/motion_studio/recording_session.py:360-431 | Inside every span that playback owns, held gaps included, the new layer changes no rendered value |
| Recording.OverdubPlaysBack | src/motion_control_studio/motion_studio/motion_studio/recording_session.py:378-405 | Every recorded value is what the axis does afterwards |
| Recording.PlainRecordingMayConflict | src/motion_control_studio/motion_studio/motion_studio/recording_session.py:37-83 | A plain recording takes over no ownership, and can conflict |
| Merging.OnlyRecordedValues | src/motion_control_studio/motion_studio/motion_studio/layer_editor.py:1548-1580 | A frame keeps the values of the ticks that their axes own |
| Merging.MergeFrames | src/motion_control_studio/motion_studio/motion_studio/layer_editor.py:1591-1700 | Composing succeeds exactly when the sources can be found, have data and do not conflict, and then gives their composition cut down to the owned spans |
| Merging.CutKeepsMotion | src/motion_control_studio/motion_studio/motion_studio/layer_editor.py:1548-1580 | A motion cut down to its owned stretches holds, waits and moves as before |
| Merging.MergeKeepsMotion | src/motion_control_studio/motion_studio/motion_studio/layer_editor.py:1693-1708 | Of the composed frames, before the curves of an axis become one: they move an axis as the sources do at every tick; if they do not, it shows at tick 1, and a lone value at tick 0 is the reason |
| Merging.MergeKeepsRendering | src/motion_control_studio/motion_studio/motion_studio/layer_editor.py:1693-1708 | Of the composed frames, before the curves of an axis become one: they render to the very frames of the sources if and only if no selected axis depends on a lone value at tick 0 (and, with no axes named, every axis has something after tick 0) |
| Merging.MergeMayChangeMotion | src/motion_control_studio/motion_studio/motion_studio/layer_editor.py:1658-1718 | Two layers that may be merged, though at tick 1 they stand at 0.0 and their merge at 1.0, so that the rendered frames differ |
| Merging.MergedDuration | src/motion_control_studio/motion_studio/motion_studio/layer_editor.py:1658-1718 | The merged layer lasts as long as its sources |
| Merging.ShiftMoves | src/motion_control_studio/motion_studio/motion_studio/layer_editor.py:1531-1545 | The appended layer has every value, moved by the same time |
| Merging.AppendedFollows | src/motion_control_studio/motion_studio/motion_studio/layer_editor.py:1658-1690 | The appended layer starts exactly one tick after the others end, unless it starts later anyway and stays where it is; every value moves by the same time |
| Merging.AppendedNeverConflicts | src/motion_control_studio/motion_studio/motion_studio/layer_editor.py:1658-1690 | A layer moved behind the others adds no conflict: the layers conflict exactly when the others do |
| CurveMerging.MergeLayers | src/motion_control_studio/motion_studio/motion_studio/layer_editor.py:1583-1730 | Merging layers with their curves: refused if some frames are not what the curves draw, or an axis has curves in one layer only; else frames composed, curves collected, gaps filled, and one curve an axis |
| CurveMerging.CollectCurves | src/motion_control_studio/motion_studio/motion_studio/layer_editor.py:1388-1415 | The curves of all sources, each under a name of its own, unless two of them overlap |
| CurveMerging.ExtendCurves | src/motion_control_studio/motion_studio/motion_studio/layer_editor.py:1266-1386 | The loops find the stretches without a curve and add straight ones, as filling means; what that leaves is in the next rows |
| FilledGaps.GapsAre | src/motion_control_studio/motion_studio/motion_studio/layer_editor.py:1326-1350 | The gaps are exactly the maximal stretches of two or more successive samples of an axis that no curve covers |
| FilledGaps.PieceIsThrough | src/motion_control_studio/motion_studio/motion_studio/layer_editor.py:1353-1385 | The curve for such a stretch is straight, and has a point at each end and at every sample whose value is not that of the sample before, and no other |
| FilledGaps.OnlyOneThrough | src/motion_control_studio/motion_studio/motion_studio/layer_editor.py:1353-1385 | There is only one such curve, but for its name |
| FilledGaps.NothingInTheWay | src/motion_control_studio/motion_studio/motion_studio/layer_editor.py:1266-1323 | With stored samples, one a tick, and curves that do not overlap and begin and end at samples, no new curve overlaps another |
| FilledGaps.ExtendingFills | src/motion_control_studio/motion_studio/motion_studio/layer_editor.py:1266-1323 | Filling keeps every given curve; each new one fills such a stretch of an axis that has a curve, where the frames have what it draws, and every such stretch gets one |
| FilledGaps.ExtendingCovers | src/motion_control_studio/motion_studio/motion_studio/layer_editor.py:1266-1323 | So a tick is covered afterwards if and only if it was, or lies in such a stretch |
| FilledMerge.MergeFillsStretches | src/motion_control_studio/motion_studio/motion_studio/layer_editor.py:1700-1722 | In the layer that merging returns, every tick is covered that a curve of the sources covered or that lies in such a stretch |
| FilledMerge.MergedPoints | src/motion_control_studio/motion_studio/motion_studio/layer_editor.py:1700-1722 | The points of the merged layer are those of the sources and the corners of the stretches that are filled, and no others |
| FilledMerge.StillIsFillable | src/motion_control_studio/motion_studio/motion_studio/layer_editor.py:1353-1385 | A stretch that holds still can always be filled |
| GatherCurves.GatheringEvery | src/motion_control_studio/motion_studio/motion_studio/layer_editor.py:831-871 | Whatever the frames were: gathering keeps every point, changes nothing on an axis with one curve, and leaves any other with one that is in step |
| CurveShift.RenderingMoves | src/motion_control_studio/motion_studio/motion_studio/layer_editor.py:1531-1545 | A curve that is moved in time draws what it drew, moved by as much |
| MergedCurves.SourcesAreGood | src/motion_control_studio/motion_studio/motion_studio/layer_editor.py:1600-1690 | Layers that pass the checks of merging, moved ones included, have frames that are what their curves draw |
| MergedCurves.MergingKeepsCurves | src/motion_control_studio/motion_studio/motion_studio/layer_editor.py:1700-1721 | The merged layer has every point of its sources and one curve an axis; its frames are what its curves draw if and only if no curve that is alone on its axis starts at tick 0 |
| MergedCurves.MergedMotion | src/motion_control_studio/motion_studio/motion_studio/layer_editor.py:1658-1721 | An axis that has at most one curve before gathering moves in the merged layer as in the sources, exactly if no lone value at tick 0 gets lost; axes with several are the subject of the next rows |
| RedrawnMotion.RedrawnDecides | src/motion_control_studio/motion_studio/motion_studio/layer_editor.py:1705-1722 | A cut motion of which one stretch is drawn again moves as before at every tick if and only if what is drawn is the motion and no lone value at tick 0 is lost |
| JoinedCurve.GatheringJoinsEvery | src/motion_control_studio/motion_studio/motion_studio/layer_editor.py:831-871 | An axis with several curves ends with one, drawn through all their points in time order, of the order of the largest; its samples fill its span, gaps included, and outside it nothing changes |
| MergedAxes.MergedFramesOn | src/motion_control_studio/motion_studio/motion_studio/layer_editor.py:831-871 | So on such an axis the merged frames have what the joined curve draws inside its span, and what was composed outside |
| MergedAxes.JoinedAxisDecides | src/motion_control_studio/motion_studio/motion_studio/layer_editor.py:1693-1722 | On an axis with several curves, of any order, the merged layer moves as the sources do at every tick if and only if the joined curve draws the motion of the sources and no lone value at tick 0 is lost; tick 0 itself is 0.0 in both, and a curve that starts there counts from tick 1 |
| MergedAxes.MergedLayerDecides | src/motion_control_studio/motion_studio/motion_studio/layer_editor.py:1583-1730 | The layer that merging returns moves as its sources do, on every axis at every tick, if and only if no axis loses a lone value at tick 0, and on each axis with several curves the joined one draws the motion of the sources |
| BridgedGaps.StraightAxisDecides | src/motion_control_studio/motion_studio/motion_studio/layer_editor.py:831-871 | For curves of order 1: if and only if, besides, every curve draws the motion of the sources (their frames may be a millionth off), and between each two that follow each other the motion lies on the line from the last point of the one to the first of the next |
| BridgedGaps.ExactAxisDecides | src/motion_control_studio/motion_studio/motion_studio/layer_editor.py:831-871 | Where the composed frames are exactly what the curves draw, the gaps alone decide |
| BridgedGaps.HeldGap | src/motion_control_studio/motion_studio/motion_studio/layer_editor.py:1548-1580 | With no sample in a gap, the motion lies on that line if and only if the curves are a tick apart or the two values are equal |
| BridgedGaps.EnclosedSegmentsStay | src/motion_control_studio/motion_studio/motion_studio/layer_editor.py:831-871 | For orders 1, 3 and 5: a segment with its neighbours in one curve, of the order that was chosen, is drawn in the merged frames as that curve drew it |
| MergeBridge.MergeMayBridge | src/motion_control_studio/motion_studio/motion_studio/layer_editor.py:831-871 | Two layers that hold still, each in step with its curve, that may be merged: at tick 3, between them, they stand at 0.0 and their merge at 0.5 |
| MergeSuccess.MergingSucceeds | src/motion_control_studio/motion_studio/motion_studio/layer_editor.py:1700-1722 | Of sources whose frames are what their curves draw and whose curves do not overlap, collecting, filling and gathering always succeed |
| MergeSuccess.MergedUnlessOverlapping | src/motion_control_studio/motion_studio/motion_studio/layer_editor.py:1388-1415 | Layers that pass the checks of merging are merged if and only if their curves do not overlap |
| MergeSuccess.SourceStartsDecide | src/motion_control_studio/motion_studio/motion_studio/layer_editor.py:1700-1722 | In terms of the sources: the merged layer is in step if none of their curves is alone on its axis and starts at 0, and only then where such a curve runs over every sample of its axis |
| MergeStart.MergeMayLoseStart | src/motion_control_studio/motion_studio/motion_studio/layer_editor.py:1658-1721 | Two layers that are in step and may be merged, though their merge is not in step |
| CurveEngine.PrepareCurvePoints | src/motion_control_studio/motion_studio/motion_studio/curve_engine.py:97-183 | The handles that are filled in point by point are those that each point and its neighbours determine |
| CurveEngine.PreparingIsDoneOnce | src/motion_control_studio/motion_studio/motion_studio/curve_engine.py:97-183 | Preparing prepared points changes nothing, for all tangent modes and orders |
| CurveEngine.SegmentEnds | src/motion_control_studio/motion_studio/motion_studio/curve_engine.py:199-256 | A segment of order 1, 3 or 5 starts at its first point and ends at its second |
| CurveEngine.RenderPointCurve | src/motion_control_studio/motion_studio/motion_studio/curve_engine.py:304-329 | One sample for every tick from the first to the last point, each from the segment that holds it; what a segment is between its points is in the rows of `CurveShapes` |
| CurveEngine.RenderPointCurveWindow | src/motion_control_studio/motion_studio/motion_studio/curve_engine.py:259-301 | Rendering a window gives the same samples as rendering everything and cutting the window out |
| CurveEngine.RenderingPassesThrough | src/motion_control_studio/motion_studio/motion_studio/curve_engine.py:304-329 | A rendering runs through every point |
| CurveEngine.RenderingAgain | src/motion_control_studio/motion_studio/motion_studio/curve_engine.py:304-329 | Rendering the points that a rendering returned gives the same samples |
| CurveEngine.CurveIsLocal | src/motion_control_studio/motion_studio/motion_studio/curve_engine.py:186-256 | Inside a segment the curve depends on its two points and their neighbours only |
| CurveShapes.CubicReproduces | src/motion_control_studio/motion_studio/motion_studio/curve_engine.py:215-222 | A segment of order 3 between the values and slopes of any cubic is that cubic |
| CurveShapes.QuinticReproduces | src/motion_control_studio/motion_studio/motion_studio/curve_engine.py:224-256 | A segment of order 5 between the values, slopes and accelerations of any quintic is that quintic |
| CurveShapes.SlopeOfPrepared | src/motion_control_studio/motion_studio/motion_studio/curve_engine.py:186-196 | At an end and at a broken point a prepared curve is flat; elsewhere both handles lie on its slope, unless the outgoing one has no length: then it is the slope between the neighbours |
| CurveShapes.ShortHandle | src/motion_control_studio/motion_studio/motion_studio/curve_engine.py:186-196 | That happens: a smooth point whose incoming handle lies on a slope of 2 while the curve has a slope of 1 |
| CurveShapes.SlopeOfAuto | src/motion_control_studio/motion_studio/motion_studio/curve_engine.py:67-75 | A point that is not smooth takes the slope between its neighbours |
| CurveShapes.SlopeOfSmooth | src/motion_control_studio/motion_studio/motion_studio/curve_engine.py:166-183 | A smooth point takes the average of the slopes that its two handles ask for, and keeps how far they reach |
| CurveShapes.HandlesReach | src/motion_control_studio/motion_studio/motion_studio/curve_engine.py:144-183 | Handles reach a third of the way to the neighbours; those of a smooth point as far as asked for, but at most half of the way |
| CurveShapes.StraightHandles | src/motion_control_studio/motion_studio/motion_studio/curve_engine.py:144-157 | In a straight curve the handles lie on the lines to the neighbours |
| CurveShapes.SlopeOfParabola | src/motion_control_studio/motion_studio/motion_studio/curve_engine.py:67-75 | Three evenly spaced points of a parabola give its first derivative in the middle |
| CurveShapes.AccelerationOfParabola | src/motion_control_studio/motion_studio/motion_studio/curve_engine.py:78-94 | Three points of a parabola give its second derivative, whatever their spacing |
| CurveShapes.ParabolaIsKept | src/motion_control_studio/motion_studio/motion_studio/curve_engine.py:199-256 | Rendered with order 3 or 5, evenly spaced points of a parabola give the parabola at every tick between the second and the last but one |
| ChordSelection.WorstInside | src/motion_control_studio/motion_studio/motion_studio/layer_editor.py:213-222 | The first of the samples inside a segment that miss its chord most, if there is any inside |
| ChordSelection.SelectByChords | src/motion_control_studio/motion_studio/motion_studio/layer_editor.py:199-260 | The queue splits what the naive rule would split, always a globally worst sample; it ends at the limit or with every sample within the threshold of its chord |
| ChordSelection.HeadIsWorst | src/motion_control_studio/motion_studio/motion_studio/layer_editor.py:236-250 | The head of the queue is the worst sample of all live segments; an empty queue means that nothing is left to split |
| ChordSelection.SplitKeeps | src/motion_control_studio/motion_studio/motion_studio/layer_editor.py:250-259 | After a split the queue holds exactly the live segments with samples inside, so no entry is ever stale |
| FitErrors.CurveErrors | src/motion_control_studio/motion_studio/motion_studio/layer_editor.py:305-315 | The error of every sample against the curve that is really drawn |
| FitErrors.LargestTells | src/motion_control_studio/motion_studio/motion_studio/layer_editor.py:342-352 | The largest error is within the tolerance exactly when every sample is |
| FitErrors.KeptIsHit | src/motion_control_studio/motion_studio/motion_studio/layer_editor.py:305-315 | A sample that is a point has no error |
| SliceCheck.SplitKept | src/motion_control_studio/motion_studio/motion_studio/layer_editor.py:438-445 | Dropping points gives the trial and the slots where something was dropped |
| SliceCheck.ChangedSlots | src/motion_control_studio/motion_studio/motion_studio/layer_editor.py:374-391 | The windows around the slots, joined where they overlap or touch |
| SliceCheck.PieceDrawsTheSame | src/motion_control_studio/motion_studio/motion_studio/layer_editor.py:405-425 | Inside a window, a slice with its margin draws what the whole curve draws |
| SliceCheck.Untouched | src/motion_control_studio/motion_studio/motion_studio/layer_editor.py:354-372 | Where nothing was dropped near a segment, the curve is what it was before |
| SliceCheck.WithinSlices | src/motion_control_studio/motion_studio/motion_studio/layer_editor.py:393-425 | The check of the slices answers whether every sample in every window is within the tolerance |
| SliceCheck.SlicesTellAll | src/motion_control_studio/motion_studio/motion_studio/layer_editor.py:393-425 | If the curve was within the tolerance before, checking the slices gives the same answer as checking the whole trial, for every order |
| Pruning.PickGroup | src/motion_control_studio/motion_studio/motion_studio/layer_editor.py:470-484 | A group is made of inner points of which no two are neighbours, and is never empty |
| Pruning.FitContext.TryDropping | src/motion_control_studio/motion_studio/motion_studio/layer_editor.py:427-447 | A trial is accepted exactly when its whole curve is within the tolerance |
| Pruning.FitContext.DropGroup | src/motion_control_studio/motion_studio/motion_studio/layer_editor.py:427-456 | What remains after a group is tried still fits, keeps both ends, and has lost nothing outside the group |
| Pruning.FitContext.SweepAlone | src/motion_control_studio/motion_studio/motion_studio/layer_editor.py:491-500 | One point after the other: if none goes and attempts are left, none can |
| Pruning.FitContext.PruneRedundant | src/motion_control_studio/motion_studio/motion_studio/layer_editor.py:458-503 | Pruning ends with a fitting subset that keeps both ends; with attempts left, no single inner point can be taken out |
| LinearSolver.SolveNormalEquations | src/motion_control_studio/motion_studio/motion_studio/layer_editor.py:536-559 | When a vector is returned it solves the equations, and is the only one that does; when none is, the matrix takes a vector with an entry 1 closer to zero than the least pivot |
| CurveFit.WorstPerGap | src/motion_control_studio/motion_studio/motion_studio/layer_editor.py:317-338 | Every gap with a sample above the tolerance has its worst one picked, and nothing else is |
| CurveFit.SomethingPicked | src/motion_control_studio/motion_studio/motion_studio/layer_editor.py:344-347 | While some sample is above the tolerance, something is picked |
| CurveFit.FillBadGaps | src/motion_control_studio/motion_studio/motion_studio/layer_editor.py:340-352 | The second pass ends within the tolerance, or with the limit used up |
| CurveFit.FreeValuePass | src/motion_control_studio/motion_studio/motion_studio/layer_editor.py:646-695 | Whatever values are proposed, the times stay in order, keep both ends and do not grow in number |
| CurveFit.Improve | src/motion_control_studio/motion_studio/motion_studio/layer_editor.py:697-715 | The improved curve is measured within the tolerance, and either is the pruned selection or has fewer points; with attempts left, no single inner sample of that selection can be taken out |
| CurveFit.ApproximateMotionPoints | src/motion_control_studio/motion_studio/motion_studio/layer_editor.py:263-730 | From the first to the last sample, with at most the allowed number of points; every sample within the tolerance, or the report says that the limit was reached; the reported maximum is the true one. Within the tolerance, the points are those of a pruned selection that fits, or fewer |
| CurveFit.NothingToSpare | src/motion_control_studio/motion_studio/motion_studio/layer_editor.py:458-503 | For every such fit, with enough attempts for its size: no more points than in a selection of samples within the tolerance, of which no single inner one can be taken out |
| StraightFit.TwoPoints | src/motion_control_studio/motion_studio/motion_studio/layer_editor.py:199-260 | A straight fit of a recording within the tolerance of its chord, and of the chords to and from its middle sample, has exactly two points; and only a recording within the tolerance of its chord is fitted by two |
| StraightFit.ChordIsNotEnough | src/motion_control_studio/motion_studio/motion_studio/layer_editor.py:458-503 | Being within the tolerance of its chord is not enough: 0, -1, 1, 0 with a tolerance of 1 gets three points or more |
| EditState.CurveEngineRenders | src/motion_control_studio/motion_studio/motion_studio/curve_engine.py:304-329 | What editing relies on: samples fill every tick between the points, and stored points are the given ones and draw the same again |
| EditState.RemovingKeeps | src/motion_control_studio/motion_studio/motion_studio/layer_editor.py:766-786 | Removing a curve and its samples leaves the others in step |
| EditState.RewritingKeeps | src/motion_control_studio/motion_studio/motion_studio/layer_editor.py:789-828 | Rewriting a curve keeps samples and curves in step, if no other curve is in its way |
| EditFrames.BuildFrames | src/motion_control_studio/motion_studio/motion_studio/layer_editor.py:103-118 | Frames are built exactly when no axis has two samples at one tick, and then hold every sample |
| EditFrames.FramesLookup | src/motion_control_studio/motion_studio/motion_studio/layer_editor.py:103-118 | Frames give back the values of the tracks |
| LayerEdit.ResolvingKeeps | src/motion_control_studio/motion_studio/motion_studio/layer_editor.py:889-920 | Recalculating from the points brings the chosen curves into step and keeps the others there |
| LayerEdit.AddingKeeps | src/motion_control_studio/motion_studio/motion_studio/axis_operations.py:17-44 | A new axis touches no curve |
| LayerEdit.CopyingKeeps | src/motion_control_studio/motion_studio/motion_studio/axis_operations.py:47-77 | The copied curves draw the copied samples |
| LayerEdit.DeletingKeeps | src/motion_control_studio/motion_studio/motion_studio/axis_operations.py:80-97 | Deleted axes take their curves with them, and no others |
| LayerEdit.SettingKeeps | src/motion_control_studio/motion_studio/motion_studio/layer_editor.py:1079-1102 | A curve is set only where no other one is |
| LayerEdit.FittingKeeps | src/motion_control_studio/motion_studio/motion_studio/layer_editor.py:1104-1141 | A fitted curve replaces everything on its axis |
| AxisEffects.AddingAdds | src/motion_control_studio/motion_studio/motion_studio/axis_operations.py:17-44 | After a whole edit that adds an axis, it has the initial value from the first to the last tick of the layer, for two ticks at least, and no other value and no curve |
| AxisEffects.CopyingAxisPlaces | src/motion_control_studio/motion_studio/motion_studio/axis_operations.py:47-77 | After a whole edit that copies an axis, the copy has exactly the points of the source |
| AxisEffects.CopyingAxisCopies | src/motion_control_studio/motion_studio/motion_studio/axis_operations.py:47-77 | and, where the source has at most one curve, its value at every tick |
| AxisEffects.DeletingRemoves | src/motion_control_studio/motion_studio/motion_studio/axis_operations.py:80-97 | After a whole edit that deletes an axis, it has neither a value nor a curve |
| RangeEdit.AxisRewritingKeeps | src/motion_control_studio/motion_studio/motion_studio/layer_editor.py:1021-1031 | Gathering the points of an axis in one curve keeps samples and curves in step |
| RangeEdit.CopyingRangeKeeps | src/motion_control_studio/motion_studio/motion_studio/layer_editor.py:941-1031 | Copying a stretch of time keeps them in step |
| RangeEdit.CopyingGathers | src/motion_control_studio/motion_studio/motion_studio/layer_editor.py:1000-1031 | Where something was copied, the axis has one curve |
| RangeEdit.DeletingRangeKeeps | src/motion_control_studio/motion_studio/motion_studio/layer_editor.py:1032-1068 | Deleting a stretch of time keeps them in step, and each curve is as it was when its turn comes |
| RangeEdit.GatheredOnePerAxis | src/motion_control_studio/motion_studio/motion_studio/layer_editor.py:831-871 | Gathered, every axis has at most one curve, in step |
| CurveTransform.TransformPoints | src/motion_control_studio/motion_studio/motion_studio/point_curve_operations.py:35-61 | The loop changes every point inside the span and its handles, or refuses a time before 0; where the points land is in the rows of `ScaleLaws` |
| ScaleLaws.LandsThere | src/motion_control_studio/motion_studio/motion_studio/point_curve_operations.py:35-61 | Moved, a point is as much later or higher; scaled, its distance from the pivot is the old one times the factor, in time to the nearest tick; outside the span it stays |
| ScaleLaws.DistancesScale | src/motion_control_studio/motion_studio/motion_studio/point_curve_operations.py:50-53 | Scaled in value, any two points of the span differ by the factor times what they differed by, and one at the pivot stays |
| ScaleLaws.HandlesLand | src/motion_control_studio/motion_studio/motion_studio/point_curve_operations.py:54-61 | The handles of a changed point scale with it |
| ScaleLaws.CurveFollows | src/motion_control_studio/motion_studio/motion_studio/point_curve_operations.py:17-66 | A curve that is moved or scaled in value as a whole draws what it drew, moved or scaled |
| CurveTransform.TransformingKeeps | src/motion_control_studio/motion_studio/motion_studio/layer_editor.py:1143-1263 | Moving and scaling keep samples and curves in step: changed curves have their new samples, the others theirs |
| CurveOverlaps.ValidateOverlaps | src/motion_control_studio/motion_studio/motion_studio/point_curve_operations.py:69-81 | Comparing neighbours in time order finds an overlap exactly when two curves of an axis overlap |
| EditLayer.AppliedKeeps | src/motion_control_studio/motion_studio/motion_studio/layer_editor.py:882-1263 | Every one of the edits keeps samples and curves in step |
| EditLayer.EditingKeepsStep | src/motion_control_studio/motion_studio/motion_studio/layer_editor.py:874-1263 | Every edit that succeeds leaves at most one curve an axis, and frames that are exactly what the curves draw |
| EditLayer.ResolvingRepairs | src/motion_control_studio/motion_studio/motion_studio/layer_editor.py:889-920 | Recalculating all curves repairs any layer whose curves can be drawn and do not overlap |
| EditLayer.EditsKeepStep | src/motion_control_studio/motion_studio/motion_studio/layer_editor.py:874-1263 | So it stays over any series of edits |
| EditKnots.EditedKnots | src/motion_control_studio/motion_studio/motion_studio/layer_editor.py:831-879 | The points of an edited layer are those that the edit made: gathering the curves of an axis loses and adds none, and the frames have the value of every point |
| EditKnots.SettingSets | src/motion_control_studio/motion_studio/motion_studio/layer_editor.py:1079-1102 | After a whole edit that sets a curve, its axis has exactly the given points and those of its other curves, and every given point is in the frames |
| EditKnots.DeletingEmpties | src/motion_control_studio/motion_studio/motion_studio/layer_editor.py:1032-1068 | After a whole edit that deletes a stretch of time, a chosen axis has a point exactly if it had it outside the stretch, on a curve with at least two points there, and the frames have it |
| EditKnots.CopyingPlaces | src/motion_control_studio/motion_studio/motion_studio/layer_editor.py:941-1031 | After a whole edit that copies a stretch of time, a chosen axis with two points or more to copy has exactly these at their new times and the old ones outside the stretch that they take, one with fewer has its old ones, and the frames have them all |
| EditKnots.TransformingPlaces | src/motion_control_studio/motion_studio/motion_studio/layer_editor.py:1143-1263 | After a whole edit that moves or scales, the points of a chosen axis are exactly the old ones, each where the change puts it, and the frames have them; `ScaleLaws.TransformingLands` says where that is |
| ScaleLaws.TransformingLands | src/motion_control_studio/motion_studio/motion_studio/layer_editor.py:1143-1263 | After a whole edit that moves or scales, the points of a chosen axis are exactly those that the old ones land on: as much later or higher, or at the factor times their distance from the pivot, in time to the nearest tick; the pivot is the start of the span in time, the first sample of the axis in the span in value, 0.0 for a span of one tick |
| ScaleLaws.ValuePivotIs | src/motion_control_studio/motion_studio/motion_studio/layer_editor.py:1196-1208 | The value pivot is the first sample of the axis in the span, or 0.0 for a span of one tick |
| ScaleLaws.ScalingDraws | src/motion_control_studio/motion_studio/motion_studio/layer_editor.py:1143-1263 | After a whole edit that moves or scales the values of a curve as a whole, the axis has at every tick of the curve its old value, moved or scaled |
| CurveScaling.RenderingScales | src/motion_control_studio/motion_studio/motion_studio/curve_engine.py:304-329 | Points with scaled values and handles draw the scaled curve |
| EditRepeat.ResolvingRests | src/motion_control_studio/motion_studio/motion_studio/layer_editor.py:889-920 | On a layer that is in step, with one curve an axis and one sample a tick, recalculating succeeds exactly when some curve is chosen, and changes no value |
| EditSamples.EditingLeaves | src/motion_control_studio/motion_studio/motion_studio/layer_editor.py:874-1263 | After every whole edit, on every axis but added, copied, deleted or fitted ones, and at every tick where no curve runs: there is nothing if a curve ran there before, and else what was there |
| EditSamples.CurvesAreDrawn | src/motion_control_studio/motion_studio/motion_studio/layer_editor.py:874-1263 | and where a curve runs, the frames have what it draws; so the frames are determined at every tick |
| EditEffects.AppliedElsewhere | src/motion_control_studio/motion_studio/motion_studio/layer_editor.py:882-1263 | An edit leaves samples and curves of every axis alone that it does not name |
| EditEffects.OtherAxesUntouched | src/motion_control_studio/motion_studio/motion_studio/layer_editor.py:874-1263 | After a whole edit such an axis has the same values at every tick, if it has at most one curve; the condition is needed, since an edit of any axis gathers the curves of all and redraws what is held between them |
| EditEffects.SettingDraws | src/motion_control_studio/motion_studio/motion_studio/layer_editor.py:789-828 | After a curve is set its axis has what the points draw, and outside their span what was there, without the old samples of that curve |
| EditEffects.DeletingDeletes | src/motion_control_studio/motion_studio/motion_studio/layer_editor.py:1032-1068 | After a stretch of time is deleted, no curve of the chosen axes has a point there |
| EditEffects.CopyingCopies | src/motion_control_studio/motion_studio/motion_studio/layer_editor.py:964-1031 | After a copy, the curve has every copied point at its new time |
| EditEffects.TransformingMoves | src/motion_control_studio/motion_studio/motion_studio/point_curve_operations.py:17-66 | A changed curve has exactly the old points, each where the change puts it; `ScaleLaws.LandsThere` says where that is |
| EditWorkbench.Workbench.RewriteCurve | src/motion_control_studio/motion_studio/motion_studio/layer_editor.py:789-828 | Rewriting in place: the samples of the old curve go, those of the new one come |
| EditWorkbench.Workbench.RemoveCurve | src/motion_control_studio/motion_studio/motion_studio/layer_editor.py:766-786 | Removing in place |
| EditWorkbench.Workbench.ResolveCurves | src/motion_control_studio/motion_studio/motion_studio/layer_editor.py:889-920 | The loops over the chosen curves do what recalculating means |
| EditWorkbench.Workbench.CopyPointRange | src/motion_control_studio/motion_studio/motion_studio/layer_editor.py:964-1031 | The loop over the axes copies on each of them |
| EditWorkbench.Workbench.DeletePointRange | src/motion_control_studio/motion_studio/motion_studio/layer_editor.py:1032-1068 | The loop over the curves deletes from each of them |
| EditWorkbench.Workbench.TransformCurves | src/motion_control_studio/motion_studio/motion_studio/layer_editor.py:1143-1263 | Changing, checking, clearing and extending in place |
| EditWorkbench.Workbench.GatherCurves | src/motion_control_studio/motion_studio/motion_studio/layer_editor.py:831-871 | The loop over the axes gathers each of them |
| EditWorkbench.Workbench.ApplyEdit | src/motion_control_studio/motion_studio/motion_studio/layer_editor.py:882-1263 | The dispatcher does, for every edit, what that edit means |
| EditWorkbench.EditOneLayer | src/motion_control_studio/motion_studio/motion_studio/layer_editor.py:874-879 | Editing a layer as a whole: the result is in step, with one curve an axis |
| AxisFit.FittedClose | src/motion_control_studio/motion_studio/motion_studio/layer_editor.py:1104-1141 | After an axis is fitted, every recorded sample is still there, within the tolerance |
| AxisFit.CreateAxisPointCurve | src/motion_control_studio/motion_studio/motion_studio/layer_editor.py:1104-1141 | Fitting and editing together: if it succeeds, the axis stays within the tolerance of its recording, and the layer is in step |
| LayerValidation.ListMismatches | src/motion_control_studio/motion_studio/motion_studio/layer_validation.py:35-84 | The loops count, for every curve, the samples that the frames do not have |
| LayerValidation.TallyTells | src/motion_control_studio/motion_studio/motion_studio/layer_validation.py:51-71 | Nothing is counted exactly when every sample agrees; the first mismatch is the first; no difference is larger than the largest |
| LayerValidation.NoMismatchMeansMatch | src/motion_control_studio/motion_studio/motion_studio/layer_validation.py:35-84 | No mismatch is listed exactly when the frames agree with every curve |
| LayerValidation.ValidateRanges | src/motion_control_studio/motion_studio/motion_studio/layer_validation.py:13-32 | The loop lists every value outside the limits of its axis |
| LayerValidation.NoIssueMeansInRange | src/motion_control_studio/motion_studio/motion_studio/layer_validation.py:13-32 | Nothing is listed exactly when every value is within its limits |
| CurveFrames.FramesAreCurveDerived | src/motion_control_studio/motion_studio/motion_studio/layer_editor.py:1418-1458 | True exactly when there is a curve and every value lies in the span of a curve of its axis |
| CurveFrames.FramesFromPointCurves | src/motion_control_studio/motion_studio/motion_studio/layer_editor.py:1461-1481 | Frames drawn from the curves alone |
| CurveFrames.FramesComeBack | src/motion_control_studio/motion_studio/motion_studio/layer_editor.py:1418-1481 | Frames that pass both checks are drawn again at exactly the same axes and ticks, within the tolerance |
| CurveFrames.FramesComeBackExactly | src/motion_control_studio/motion_studio/motion_studio/layer_editor.py:1418-1481 | With exactly matching frames nothing at all is lost |
| Composition.CompositionCache.Compose | src/motion_control_studio/motion_studio/motion_studio/workspace_session.py:181-261 | The composition is brought up to date when there is a cache for the project and something is affected, and worked out anew otherwise |
| Composition.SelectingFilters | src/motion_control_studio/motion_studio/motion_studio/timeline.py:144-186 | Listing conflicts for some axes keeps those of these axes, as often as they were, and no others |
| Composition.ConflictsOnAxis | src/motion_control_studio/motion_studio/motion_studio/timeline.py:144-186 | The conflicts of an axis depend on nothing but the enabled layers that have it |
| Composition.UpdatedIsFull | src/motion_control_studio/motion_studio/motion_studio/workspace_session.py:181-261 | For a change that the affected axes and layers cover, updating gives the entries that working everything out anew would give |
| LayerCommands.CommandsCover | src/motion_control_studio/motion_studio/motion_studio/layer_commands.py:40-324 | What every layer command says is affected covers what it changes |
| LayerCommands.CommandsLeave | src/motion_control_studio/motion_studio/motion_studio/layer_commands.py:40-324 | A command is refused exactly when the layer that it names is missing, and else leaves the layers that it says, the named one with its new settings, frames and curves |
| LayerCommands.CacheIsAlwaysRight | src/motion_control_studio/motion_studio/motion_studio/workspace_session.py:181-261 | After any series of commands that give new layers new names, the cache equals full recomputation, as multisets |
| ProjectStore.ReadProject | src/motion_control_studio/motion_studio/motion_studio/project_store.py:558-590 | Loading goes through the entries in order and fails at the first file that is missing or has another id |
| ProjectStore.Store.SaveProject | src/motion_control_studio/motion_studio/motion_studio/project_store.py:335-428 | A save is this sequence of steps: directory, changed layers, metadata, unlinks; every state of the disk in between is on record |
| ProjectStore.LoadsWhatWasSaved | src/motion_control_studio/motion_studio/motion_studio/project_store.py:395-428 | Once the metadata is written, and after each unlink, loading gives exactly the saved layers in order |
| ProjectStore.SavedExactlyWhenStorable | src/motion_control_studio/motion_studio/motion_studio/project_store.py:395-428 | A finished save loads back as what was saved if and only if written layers share no file with others, unwritten ones are on disk, and no deleted file is in use |
| ProjectStore.EveryStopLoads | src/motion_control_studio/motion_studio/motion_studio/project_store.py:395-428 | A save cut off after any number of steps leaves a project that loads, each layer old or new |
| ProjectStore.IncrementalRefinesFull | src/motion_control_studio/motion_studio/motion_studio/project_store.py:395-428 | Saving the changed layers alone leaves the same project as saving them all |
| ProjectStore.FullSaveCleans | src/motion_control_studio/motion_studio/motion_studio/project_store.py:395-428 | After a full save a file is there exactly if some layer is stored in it |
| ProjectStore.ChangedSaveKeeps | src/motion_control_studio/motion_studio/motion_studio/project_store.py:395-428 | After a save of changed layers a file is there exactly if it was, or was written, and belongs to no deleted layer |
| TriggerSync.TriggerSyncEstimator.AddExchange | src/motion_coordination/motion_coordination/trigger_sync.py:35-50 | An exchange is kept unless its round trip is negative |
| TriggerSync.TriggerSyncEstimator.Estimate | src/motion_coordination/motion_coordination/trigger_sync.py:52-66 | The estimate is the median offset of the best exchanges, with their spread and round trip |
| TriggerSync.BestAreShortest | src/motion_coordination/motion_coordination/trigger_sync.py:52-66 | The best are as many as are to be kept, or all, and no other exchange has a shorter round trip |
| TriggerSync.MedianIsMiddle | src/motion_coordination/motion_coordination/trigger_sync.py:52-66 | At most half of the offsets are smaller than the median, and at most half larger |
| TriggerSync.ExchangeIsHonest | src/motion_coordination/motion_coordination/trigger_sync.py:35-50 | With non-negative delays, each exchange is off by at most half its round trip |
| TriggerSync.EstimateError | src/motion_coordination/motion_coordination/trigger_sync.py:52-66 | The estimate is off by at most half the smallest round trip plus spread plus 1 ns, so by at most twice its uncertainty plus 1 ns |
| TriggerSync.EstimateErrorIsTight | src/motion_coordination/motion_coordination/trigger_sync.py:52-66 | The uncertainty itself is no bound: twice it, but for the last nanosecond, is reached |
| TriggerSync.StartSpreadBound | src/motion_coordination/motion_coordination/coordination_node.py:585-614 | The true spread of starts differs from the reported one by at most four uncertainties and 2 ns, the coordinator with its own clock included |
| GroupBarrier.SpreadIsWidest | src/motion_coordination/motion_coordination/group_execution.py:247-256 | The spread is the largest difference between any two trigger times |
| GroupBarrier.GroupExecution.Begin | src/motion_coordination/motion_coordination/group_execution.py:160-190 | An execution starts with one to eight PCs, the coordinator among them, and only when none is held |
| GroupBarrier.GroupExecution.AcceptReady | src/motion_coordination/motion_coordination/group_execution.py:192-196 | Refused outside preparation |
| GroupBarrier.GroupExecution.BeginInitialization | src/motion_coordination/motion_coordination/group_execution.py:198-206 | Asks that all are ready, not what state it is in |
| GroupBarrier.GroupExecution.AcceptArmed | src/motion_coordination/motion_coordination/group_execution.py:208-219 | The last report arms the group |
| GroupBarrier.GroupExecution.BeginStart | src/motion_coordination/motion_coordination/group_execution.py:221-239 | The first start needs all armed, every later one all settled |
| GroupBarrier.GroupExecution.AcceptTriggered | src/motion_coordination/motion_coordination/group_execution.py:247-256 | Counts the cycle when all have reported its start, whatever the state |
| GroupBarrier.GroupExecution.AcceptMotionCompleted | src/motion_coordination/motion_coordination/group_execution.py:266-275 | The barrier after the motion; at the target it asks for a stop |
| GroupBarrier.GroupExecution.BeginCycleInitialization | src/motion_coordination/motion_coordination/group_execution.py:277-290 | Only after all motions are completed |
| GroupBarrier.GroupExecution.AcceptCycleInitialized | src/motion_coordination/motion_coordination/group_execution.py:292-298 | The barrier after settling |
| GroupBarrier.GroupExecution.StopAfterThisCycle | src/motion_coordination/motion_coordination/group_execution.py:300-303 | Stops at once where no motion is under way |
| Coordination.CoordinationNode.EventCallback | src/motion_coordination/motion_coordination/coordination_node.py:883-1030 | The answer to every report, with all that it changes; what the answers to failures are worth is in the rows of `Failures` |
| Coordination.CoordinationNode.StartGroup | src/motion_coordination/motion_coordination/coordination_node.py:1402-1522 | A new execution forgets everything of an earlier one |
| Coordination.CoordinationNode.AcceptSyncResult | src/motion_coordination/motion_coordination/coordination_node.py:529-639 | A PC reports that its clock is known; with the last one, the waiting action goes out |
| Coordination.CoordinationNode.CompleteTriggerSyncIfReady | src/motion_coordination/motion_coordination/coordination_node.py:709-724 | The waiting action goes out once every clock is known |
| Coordination.CoordinationNode.BeginGroupRelease | src/motion_coordination/motion_coordination/coordination_node.py:1750-1775 | A release starts unless one is under way |
| Coordination.CoordinationNode.EnterGroupRelease | src/motion_coordination/motion_coordination/coordination_node.py:1069-1097 | The lease is held until every PC has let go |
| Coordination.CoordinationNode.CancelExecution | src/motion_coordination/motion_coordination/coordination_node.py:1099-1145 | Cancelling an execution before its start |
| Coordination.CoordinationNode.OnTimer | src/motion_coordination/motion_coordination/coordination_node.py:1648-1674 | After the dwell the next settling begins |
| Lockstep.EventKeeps | src/motion_coordination/motion_coordination/coordination_node.py:883-1030 | Every answer keeps what the coordinator knows true, and sends a start only when it is justified |
| Lockstep.NobodyRunsAhead | src/motion_coordination/motion_coordination/group_execution.py:221-298 | No PC starts motion c+1 before every PC has completed motion c and reported that it has settled, over every run with delayed, repeated, reordered or lost messages |
| Lockstep.NobodySettlesEarly | src/motion_coordination/motion_coordination/group_execution.py:277-290 | No PC settles for the next cycle before every PC has completed the motion |
| Lockstep.NeverInDifferentCycles | src/motion_coordination/motion_coordination/group_execution.py:198-298 | Two PCs never move in different cycles |
| Lockstep.TargetIsKept | src/motion_coordination/motion_coordination/group_execution.py:266-275 | A run with a target never goes past it |
| Lockstep.OnceIsOnce | src/motion_coordination/motion_coordination/coordination_node.py:973-984 | A run that is to play once starts no second cycle |
| Lockstep.AtMostOneMore | src/motion_coordination/motion_coordination/group_execution.py:300-303 | After a stop is asked for, at most one more cycle is played |
| StopBounds.NothingMoreStarts | src/motion_coordination/motion_coordination/group_execution.py:300-303 | Once a stop is due and nothing is on its way, no start and no settling is asked for any more, over every run |
| StopBounds.CompletionReleases | src/motion_coordination/motion_coordination/coordination_node.py:973-984 | Over every run: after a stop was asked for, or at the target, or in a run that plays once, every later completion barrier leads to the release of every PC, and no start or settling command goes out any more |
| StopBounds.OtherBarriersGoOn | src/motion_coordination/motion_coordination/coordination_node.py:973-984 | Every other completion barrier leads to the next settling, unless the execution is given up: it is commanded at once, or the clocks are asked for it, or the dwell before it runs |
| Continuations.StopDecides | src/motion_coordination/motion_coordination/group_execution.py:300-303 | In every reached world with a stop due, another start can still come if and only if something is under way that leads to one |
| Continuations.RequestedStopDecides | src/motion_coordination/motion_coordination/coordination_node.py:1524-1579 | A stop that an operator requests lets no further cycle start if and only if no PC settles or is about to (or dwells before), and no clocks are being asked for before the first initialization |
| Continuations.CommandedStopDecides | src/motion_coordination/motion_coordination/coordination_node.py:828-837 | A stop that another PC asks for only sets the flag: it lets no further cycle start if and only if, besides, no first cycle is being prepared and no start waits for the clocks |
| Continuations.SettlingIsReached | src/motion_coordination/motion_coordination/coordination_node.py:973-984 | Every run that is to play more than one cycle can come to where the PCs settle |
| Continuations.StopWhileSettling | src/motion_coordination/motion_coordination/coordination_node.py:985-990 | So that one more cycle is real: in any such run, a stop can come after which another start goes out |
| Failures.ErrorStopsAll | src/motion_coordination/motion_coordination/coordination_node.py:1018-1030 | Over every run: when a PC reports an error, every PC is told to stop, the execution has failed, and no command goes out for it any more |
| Failures.RejectionStopsAll | src/motion_coordination/motion_coordination/coordination_node.py:903-916 | The same when a PC refuses a command while a motion is under way or the PCs let go |
| Failures.RejectionCancels | src/motion_coordination/motion_coordination/coordination_node.py:1099-1145 | When a PC refuses a command before the first motion or between two, the PCs are told to let go if the own worker of the coordinator has, and there are others; else the execution has failed |
| Failures.RefusalDecides | src/motion_coordination/motion_coordination/coordination_node.py:1099-1145 | After such a refusal, with no start on its way, another cycle can still start if and only if the clocks are being asked for before the first initialization |
| Failures.LettingGoEnds | src/motion_coordination/motion_coordination/coordination_node.py:991-1012 | With the answer of the last PC that it has let go, the execution is over, as failed or as stopped, and nothing comes any more |
| Failures.ArmedApartStopsAll | src/motion_coordination/motion_coordination/coordination_node.py:917-942 | PCs that turn out to have been armed more than 70 ms apart are stopped: all are told, the execution has failed, nothing more goes out |
| Failures.StartedApartStopsAll | src/motion_coordination/motion_coordination/coordination_node.py:950-972 | The same for PCs that have started more than 70 ms apart |
| Failures.UnhealthyStopsAll | src/motion_coordination/motion_coordination/coordination_node.py:1604-1612 | The same when a PC is not well as the next start or settling falls due |
| Failures.UnhealthyTimerStopsAll | src/motion_coordination/motion_coordination/coordination_node.py:1666-1674 | or when the dwell before the settling is over |
| Failures.LateAnswerCancels | src/motion_coordination/motion_coordination/coordination_node.py:1686-1711 | A command that is not acknowledged in time cancels the execution if nothing can have moved |
| Failures.LateAnswerStopsAll | src/motion_coordination/motion_coordination/coordination_node.py:1686-1711 | and stops every PC otherwise |
| Failures.AnswersAreCounted | src/motion_coordination/motion_coordination/coordination_node.py:1676-1684 | Acknowledgements are counted, and with the last one nothing is waited for |
| Failures.StopEndsAtOnce | src/motion_coordination/motion_coordination/coordination_node.py:1524-1579 | A stop at once: every PC is told, and nothing goes out any more |
| Failures.StopAfterCycleIsTold | src/motion_coordination/motion_coordination/coordination_node.py:1524-1579 | A stop after the cycle: every PC is told, and the stop stays due |
| Failures.StoppingEnds | src/motion_coordination/motion_coordination/coordination_node.py:991-1012 | When a PC has stopped of its own accord, a run that is to stop releases every PC, and any other rests |
| Failures.OverForGood | src/motion_coordination/motion_coordination/coordination_node.py:2414-2428 | Once an execution is over, the coordinator sends nothing more for it |
| Failures.InitializingStartsNothing | src/motion_coordination/motion_coordination/coordination_node.py:1614-1646 | A run that is only to initialize starts no motion |
| Failures.InitializingEnds | src/motion_coordination/motion_coordination/coordination_node.py:1614-1646 | Once its PCs are armed together it is over, and they are told to let go |
| MidiRelay.SequenceGate.Accepts | src/motion_coordination/motion_coordination/midi_relay.py:123-145 | Lets a number through exactly when it is higher than the last |
| MidiRelay.GateOnlyRises | src/motion_coordination/motion_coordination/midi_relay.py:123-145 | However a stream is reordered or repeated, what gets through rises |
| MidiRelay.GateLosesNothingNew | src/motion_coordination/motion_coordination/midi_relay.py:123-145 | A number is held back only when one at least as high got through before |
| MidiRelay.MidiRelayBridge.ChooseTarget | src/motion_coordination/motion_coordination/midi_relay_bridge.py:213-254 | Lends the surface, and takes it back from the PC that had it |
| MidiRelay.MidiRelayBridge.DeviceChanged | src/motion_coordination/motion_coordination/midi_relay_bridge.py:260-279 | Unplugging the device ends the lending |
| MidiRelay.MidiRelayBridge.OwnerGrant | src/motion_coordination/motion_coordination/midi_relay_bridge.py:498-524 | A grant lends or takes back at once, unless it is meant for someone else |
| MidiRelay.MidiRelayBridge.GroupValue | src/motion_coordination/motion_coordination/midi_relay_bridge.py:403-432 | Values are taken only with a grant, and only rising ones |
| MidiRelay.MidiRelayBridge.OnTick | src/motion_coordination/motion_coordination/midi_relay_bridge.py:530-600 | A tick ends a lease that was not renewed, forgets a silent stream and renews what is lent |
| MidiRelay.LeaseEnds | src/motion_coordination/motion_coordination/midi_relay_bridge.py:541-563 | A PC without the device has the surface only while a grant to it is younger than delay, lease and tick together, even if the revoke is lost |
| MidiRelay.OnlyTheChosen | src/motion_coordination/motion_coordination/midi_relay_bridge.py:342-351 | Once the choice has stood that long, only the chosen PC can have the surface |
| MidiRelay.OneOwner | src/motion_coordination/motion_coordination/midi_relay_bridge.py:342-351 | Two PCs have the surface at once only within that time after a change of choice |
| MidiLease.ChosenHasIt | src/motion_coordination/motion_coordination/midi_relay_bridge.py:541-580 | Over every run: if the repeat period, a tick and the delay of a message fit into the lease, and no grant is lost, the chosen PC has the surface as long as the choice stands, once it has settled |
| MidiEffects.ChoiceIsTold | src/motion_coordination/motion_coordination/midi_relay_bridge.py:213-254 | A choice is told to the PC that is chosen, and its end to the one that was |
| MidiEffects.UnpluggingIsTold | src/motion_coordination/motion_coordination/midi_relay_bridge.py:260-279 | Unplugged, the device is lent no more, and the PC that had the surface is told |
| MidiEffects.GrantDecides | src/motion_coordination/motion_coordination/midi_relay_bridge.py:498-524 | A PC has the surface after a grant, and no longer after its end, when values count anew |
| MidiEffects.ValuesCount | src/motion_coordination/motion_coordination/midi_relay_bridge.py:403-432 | A value for a PC with a grant that is newer than all it has taken shows where the surface is, and that it is alive; any other one changes nothing |
| MidiEffects.SilentStreamEnds | src/motion_coordination/motion_coordination/midi_relay_bridge.py:582-600 | Over every run: a stream is believed in for a second and a tick after the last value taken, and no longer |
| MidiEffects.TakenRise | src/motion_coordination/motion_coordination/midi_relay_bridge.py:403-432 | Over every run: until its gate is opened again, what a PC takes only rises |

## Left out

- Rounding, epsilons and times off the grid: ticks are whole numbers, values exact reals. On the grid "one and a half periods" means two ticks or more. Times before 0 are refused before they arise.
- Axis names are numbered in the order in which the program sorts them; ids and names of layers, curves and files are opaque, and new ids are supplied by the caller as names not in use.
- Renaming points whose ids collide, `edit_revision`, locked layers, creation and update times, display texts: nothing modelled depends on them. Points are sorted by time alone, since two at one time are refused anyway.
- The clean-up of `normalize_layer`: layers are taken as already cleaned up; only its refusal of repeated curve ids is modelled, at the end of an edit.
- MergedCurves.SourcesAreGood: requires stored layers with one value a tick, and the points of a curve in time order; names of points are left alone, new curves come in the order of their axes, and `merge_report` is left out.
- The filter of `playback_ownership` by named axes, which its callers here do not use.
- CurveFit.FreeValuePass: takes the tuned values as an arbitrary proposal, since every result is measured before it is used; how good the proposals are is not modelled. The solver they use is (`LinearSolver.SolveNormalEquations`).
- CurveFit.ApproximateMotionPoints: requires samples at distinct ticks, as recordings and edits make them; the reported average error is left out.
- AxisFit.CreateAxisPointCurve: requires at most one value of the axis at a tick.
- The heap of the chord selection is a list in the order of its tuples.
- Composition.CompositionCache.Compose: takes the range check and the curve check of a layer as functions, under one mapping; importing several layers at once is the same as adding them one by one.
- ProjectStore.Store.SaveProject: layers without an id, and damaged or linked files, are not modelled; a single write is atomic.
- `mark_cycle_ready`, which the coordinator never calls, and the display fields of a barrier.
- Lockstep.NobodyRunsAhead: speaks of one execution; reports and commands of other executions are dropped by their ids, and an execution that is replaced by another PC's claim ends. What a PC does between a command and its report is left open: it may also stop, or say anything but a start, a completion or a settling that did not happen.
- Continuations.StopDecides: speaks of what the coordinator still does; a PC that has got the stop itself may not follow it.
- The deadline for the report of a start, and failing clocks in group execution: they may end an execution at any time.
- Failures.RefusalDecides: takes the run at a point where no start is on its way; one that is may still be carried out.
- StraightFit.TwoPoints: says when two points are sure and when they are possible; between the two it depends on the order in which samples are taken out.
- MidiRelay.OneOwner: assumes one device, a bound on message delay and on the time between ticks, and one group; forwarding of surface channels is not modelled.
- MidiLease.ChosenHasIt: assumes besides that no grant to the chosen PC is lost.
- Threads and locks inside one process: each callback is one step.
- ROS, HTTP, file formats, processes, motors, the scheduler and the display.
