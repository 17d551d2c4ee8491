# Shot-Sync pose pipeline, modelled in Dafny

Shot-Sync compares a user's basketball shot with a benchmark shot. A pose estimator reports 33 body landmarks per frame. The code turns them into three joint angles (elbow, wrist, arm) and a phase label (neutral, pre-shot, follow-through). A capture state machine cuts one shot out of the stream of frames. The comparison then:

- reduces each shot to a form series (the mean of the defined angles per frame);
- aligns the two series with dynamic time warping (DTW);
- scores every user sample from 0 to 100;
- builds a list of feedback items from threshold rules at four checkpoints (Start, Ball Set, Release, Follow Through).

The same pipeline exists in four places:

- the full browser app (`app.js`);
- a second browser copy whose feedback is only the score line and its band (`static/app_github.js`);
- an offline extractor that runs the capture machine over a video file (`process_player_video.py`);
- a script that records the fixed frame window 130–148 without a state machine (`extract_frames_130_148.py`).

The model is a set of pure functions over immutable datatypes, one module per stage:

| module | file | stage |
|---|---|---|
| `Basics` | basics.dfy | `Option`, `Abs`, `Clamp`, `Sum`, and square/quotient comparison lemmas |
| `Landmarks` | landmarks.dfy | `get3DPoint`, `calculateAngle`, the three joint angles of a frame |
| `ArmState` | arm_state.dfy | `getArmState` |
| `Capture` | capture.dfy | the capture state machine of the browser handlers and `process_video` |
| `Offline` | offline.dfy | `process_video` and `process_frames_130_148` |
| `Form` | form.dfy | `computeOverallForm`, `extractFormSeries` |
| `Warping` | dtw.dfy | `dtw`: the recursive specification, and the matrix-filling and backtracking methods |
| `Closeness` | closeness.dfy | `computeUserCloseness` |
| `Feedback` | feedback.dfy | `getEventAngles`, `generateFeedback` |
| `Compare` | compare.dfy | `compareShots` in both browser copies |

Two things are parameters of the model rather than part of it:

- The numeric value of an angle (`acos` of a normalised dot product, in degrees) is an opaque function parameter. The model states exactly when an angle exists and what it is computed from.
- The clock (`Date.now()`, or `frame_count / fps`) is the `time` field of each incoming frame.

Every square-root comparison in the source is restated on squares: the wrist distance, the ray lengths, and the standard deviation. The lemmas `Basics.RootBelow` and `Basics.RootAbove` show that the restated tests are equivalent for the non-negative root.

## Model

| member | source | states |
|---|---|---|
| Landmarks.GetPoint | app.js:104-113 | a point exists exactly when landmarks were detected, the index is in range and visibility is at least 0.5; x and y are scaled by width and height, z passes through (browser) or is scaled by width (Python) |
| Landmarks.ShortRayIsShortLength | app.js:125 | the squared-length test below 1e-10 is the same as the source's length test below 1e-5 |
| Landmarks.CalculateAngle | app.js:115-129 | the angle is null exactly when a point is missing or either ray is shorter than 1e-5; otherwise it is the acos of the three points |
| Landmarks.FrameAngles | app.js:264-273 | each angle is the joint angle at its vertex: the elbow angle at the right elbow (from the right shoulder and wrist), the wrist angle at the right wrist (from the right elbow and index finger), the arm angle at the right shoulder (from the left shoulder and right elbow); an angle is defined exactly when its three landmarks are present and neither ray is shorter than 1e-5, and is then acos of the three scaled points |
| ArmState.GetArmState | app.js:131-166 | pre-shot exactly when the reference pre-shot stance holds; follow-through exactly when it does not and the wrist is above the shoulder; neutral otherwise, including the redundant third test |
| ArmState.ClassifierReadsFiveLandmarks | app.js:132-137 | two frames that agree on the right shoulder, both wrists and both hips get the same phase |
| Capture.Observe | app.js:259-273 | one frame's phase is pre-shot exactly when the stance holds, and an elbow angle implies the elbow landmark is present |
| Capture.Step | app.js:283-325 | each transition of the handler: start on pre-shot while idle (buffer is the first record at time 0), abort on neutral before follow-through (buffer emptied), follow-through seen, finalize on pre-shot after follow-through (closing record appended, then stop), otherwise append while active; nothing changes after finalizing; the last phase is updated on every frame except the finalizing one, the start time is set on a start and kept for the rest of the capture, and once seen, follow-through stays seen until the capture ends |
| Capture.StepKeepsInv | app.js:283-325 | one step preserves the invariant: idle means empty buffer; an active buffer starts with a pre-shot record at time 0; a seen follow-through is in the buffer; a finalized shot ends with pre-shot |
| Capture.RunKeepsInv | app.js:255-259 | the invariant holds after any stream of frames fed to the handler |
| Capture.FinalizedShotShape | app.js:304-308 | every finalized shot has at least three records, starts and ends with pre-shot and contains a follow-through |
| Capture.ReachableStates | app.js:283-302 | in any reachable state nothing is buffered while idle, and an active capture without follow-through last saw pre-shot |
| Capture.RunAfterDone | app.js:306-307 | once the shot is finalized no later frame changes the state |
| Capture.RunConcat | app.js:255-259 | feeding a + b is feeding a, then b |
| Capture.StepKeepsTimeBound | app.js:314-316 | a step at a later clock time keeps record times increasing and bounded by the elapsed time |
| Capture.RunKeepsTimes | app.js:314-324 | with strictly increasing frame times, recorded times strictly increase from 0 |
| Capture.FullCycleExample | app.js:283-325 | neutral, pre-shot, pre-shot, follow-through, pre-shot finalizes exactly the four records from the first pre-shot |
| Capture.FalseStartExample | app.js:289-293 | neutral, pre-shot, neutral leaves the detector idle with nothing buffered |
| Offline.StoredAngle | process_player_video.py:250-252 | a stored angle is None exactly when it was None or exactly 0.0 (falsy in Python); otherwise it is unchanged |
| Offline.VideoFrames | process_player_video.py:199-200 | the k-th frame (from 0) has time (k + 1) / fps and its pose with stored angles |
| Offline.VideoFramesIncrease | process_player_video.py:199-200 | video frame times are positive and strictly increasing |
| Offline.ProcessVideo | process_player_video.py:194-282 | defined for a zero frame rate when no frame is read; None exactly when no capture is running at the end; otherwise the buffer, starting with pre-shot at time 0 with increasing times; a finalized shot has at least three records, ends with pre-shot and contains a follow-through |
| Offline.ProcessVideoStopsAtFinalize | process_player_video.py:244-255 | after the closing pre-shot frame the loop stops: frames appended after it do not change the result |
| Offline.ProcessVideoKeepsUnfinishedCapture | process_player_video.py:278-282 | at the end of the video an unfinished capture is still returned (neutral, pre-shot, follow-through gives two records) |
| Offline.WindowRecord | extract_frames_130_148.py:195-238 | a frame without a pose gives a neutral record with no angles; otherwise the phase and the stored angles; the time is the given one |
| Offline.WindowFrom | extract_frames_130_148.py:183-189 | the loop from offset k records at most 19 - k frames and stops only at the window end, the end of the video, or a failed read |
| Offline.WindowFromRecords | extract_frames_130_148.py:183-239 | each record from offset k on comes from a successful read at its own offset, with time offset / fps |
| Offline.ProcessWindow | extract_frames_130_148.py:171-239 | defined for a zero frame rate when the first read fails, and then empty; at most 19 records; the i-th comes from the i-th read, which succeeded; fewer than 19 records only when the video ended or the next read failed |
| Offline.WindowTimes | extract_frames_130_148.py:189 | window times start at 0 and grow by 1 / fps per record |
| Form.DefinedAngles | app.js:601-604 | the defined angles in order: empty exactly when none is defined, a singleton when only one is |
| Form.OverallForm | app.js:600-607 | null exactly when no angle is defined; otherwise the arithmetic mean of the defined angles: a single angle itself, two angles their half-sum, three angles their third-sum |
| Form.FormWithinAngles | app.js:605-606 | the form value lies between the smallest and largest defined angle |
| Form.KeptIndices | app.js:612-618 | the kept frames are increasing, in range, each has a form value, and every frame with a form value is kept |
| Form.ExtractFormSeries | app.js:609-620 | times and values have equal length, at most the number of frames |
| Form.SeriesFollowsKept | app.js:612-618 | the k-th series entry is the time and form value of the k-th kept frame |
| Form.DroppedFrames | app.js:613-614 | a frame is dropped exactly when none of its three angles is defined |
| Form.SeriesTimesIncrease | app.js:609-620 | increasing frame times give increasing series times |
| Warping.Min2Commutes | app.js:633-637 | the minimum of two costs does not depend on their order |
| Warping.Acc | app.js:624-639 | the origin cell is 0, border cells are infinite, interior cells are finite and non-negative |
| Warping.Choose | app.js:647-653 | `indexOf(min)` order: up when it is the minimum, left when it is and up is not, diagonal otherwise |
| Warping.Next | app.js:641-654 | the backtracking step is a unit step to a finite cell, and the cell's cost is its local cost plus that cell's cost |
| Warping.Retreat | app.js:650-652 | each of the three moves is a unit step back from the current cell |
| Warping.Path | app.js:641-656 | every pair on the path is inside the two series |
| Warping.PathShape | app.js:641-656 | the path starts at (0, 0), ends at (n - 1, m - 1), moves by unit steps and has between max(n, m) and n + m - 1 pairs |
| Warping.PathCovers | app.js:641-656 | every benchmark index and every user index appears on the path |
| Warping.UnitStepsMonotone | app.js:649-653 | along a unit-step path both indices never decrease and their sum grows by at least one per step |
| Warping.PathCostIsAcc | app.js:629-656 | the distance equals the sum of the local costs along the returned path |
| Warping.ZeroCostPairsEqual | app.js:631 | on a path of cost 0 every paired sample is equal |
| Warping.AccSymmetric | app.js:629-639 | swapping the two series transposes the cost matrix |
| Warping.AccSelfZero | app.js:629-639 | a series against itself has cost 0 on the diagonal |
| Warping.Dtw | app.js:623-657 | both empty: distance 0 and empty path; one empty: infinite distance and empty path; otherwise a finite distance equal to the path cost, with the path from (0, 0) to (n - 1, m - 1) by unit steps |
| Warping.DistanceSymmetric | app.js:623-657 | the distance does not depend on which series is the benchmark |
| Warping.DistanceToSelf | app.js:623-657 | a series has distance 0 to itself |
| Warping.PathVisitsEveryIndex | app.js:641-656 | for non-empty series every index of both appears on the returned path |
| Warping.SelfPathNotDiagonal | app.js:647-653 | the tie order makes [0, 0] against itself take the path (0,0), (0,1), (1,1), not the diagonal |
| Warping.FillMatrix | app.js:626-639 | the filled matrix holds the recursive cost at every cell |
| Warping.Backtrack | app.js:641-654 | the backtracking loop over the matrix builds exactly the recursive path |
| Warping.ComputeDtw | app.js:623-657 | the imperative dtw returns the specified distance and path |
| Closeness.PointScore | app.js:676 | the score is in [0, 100], is 100 exactly for equal values, loses 2 points per degree and is 0 from 50 degrees on |
| Closeness.Mapped | app.js:663-666 | the benchmark indices paired with a user index, each from a path pair; empty exactly when the index is not on the path |
| Closeness.MappedComplete | app.js:661-666 | every path pair with user index j contributes its benchmark index to the mapped list |
| Closeness.MappedCount | app.js:661-666 | the mapped list has one entry per path position whose user index is j |
| Closeness.UserCloseness | app.js:659-681 | one score per user sample, each in [0, 100], 100 for a user index the path does not visit, and each the score of that sample against the middle mapped benchmark index |
| Closeness.ScoreAt | app.js:670-679 | the score is 100 when no benchmark index is mapped; otherwise the point score of the user value against the benchmark value at mapped position floor(n/2), which is in range |
| Closeness.MappedAscending | app.js:663-666 | on a unit-step path the indices mapped to one user index strictly increase |
| Closeness.UpperMiddle | app.js:670-676 | with an even number of mapped indices the sample is scored against the upper of the two middle benchmark indices, which is strictly above the lower one |
| Closeness.DefaultBranchUnreachable | app.js:677-679 | on the path dtw returns, every user index has a mapped benchmark index |
| Closeness.IdenticalSeriesScoreFull | app.js:659-681 | a series scored against itself gets 100 everywhere, although the path need not be diagonal |
| Closeness.UniformOffsetExample | app.js:659-681 | [10, 20] against [15, 25] scores 90 and 90 |
| Closeness.OffsetPathIsDiagonal | app.js:626-657 | dtw pairs [10, 20] with [15, 25] along the diagonal |
| Closeness.DiagonalCloseness | app.js:659-681 | on the diagonal path, a uniform offset of 5 degrees costs 10 points at every sample |
| Feedback.Mean | app.js:714 | no mean for an empty list (NaN); otherwise mean times length is the sum |
| Feedback.MeanWithin | app.js:714 | the mean of scores in [lo, hi] is in [lo, hi] |
| Feedback.BandOf | app.js:717-725 | the band is Excellent from 90, Good from 75, Needs work from 60, and Significant below 60 or for NaN |
| Feedback.BandMonotone | app.js:717-725 | a higher mean never gets a lower band |
| Feedback.TimingSection | app.js:728-741 | a timing item exactly when both series have two or more samples, positive durations and durations more than 10% apart; slower exactly when the user's shot is longer; the reported percentage exceeds 10 and its magnitude is the duration difference as a percentage of the benchmark duration |
| Feedback.PercentThreshold | app.js:732-733 | the signed percentage is positive exactly when the user is longer, its magnitude times the benchmark duration is 100 times the difference, and it exceeds 10 in magnitude exactly when the difference exceeds a tenth of the benchmark duration |
| Feedback.EventIndex | app.js:688-697 | checkpoint indices are inside the series: first, floor(n/3), floor(2n/3), last |
| Feedback.EventIndicesOrdered | app.js:688-697 | the four checkpoint indices never go backwards |
| Feedback.EventAngles | app.js:683-708 | no angles when the series or the shot is empty |
| Feedback.EventAnglesReadShot | app.js:699-705 | a shot with a non-empty series gets the angles of the record at the checkpoint index |
| Feedback.Gap | app.js:753-756 | the gap is the absolute difference when both angles are defined, and 0 otherwise |
| Feedback.FollowThroughIssues | app.js:759-776 | weak snap / over-extended wrist exactly when both wrists are defined and the user is more than 10 degrees above / below; collapsed elbow / arm too straight exactly when the user elbow is more than 10 degrees above / below; the issues come in the order the source pushes them, none twice |
| Feedback.ReleaseIssues | app.js:777-794 | wrist too bent / not bent enough past 10 degrees each way; chicken wing / elbow too tucked past 15 degrees each way; the issues come in the order the source pushes them, none twice |
| Feedback.BallSetIssues | app.js:795-808 | elbow flaring / not tucked past 15 degrees each way; wrist not cocked when both wrists are defined and more than 15 degrees apart; the issues come in the order the source pushes them, none twice |
| Feedback.StartIssues | app.js:809-822 | elbow too wide / too straight past 15 degrees each way; stance misaligned when both arm angles are defined and more than 15 degrees apart; the issues come in the order the source pushes them, none twice |
| Feedback.CheckpointIssues | app.js:751-823 | none unless both elbow angles are defined; otherwise exactly the issues of the rule block for that checkpoint; at most two, all tagged with it |
| Feedback.CheckpointAt | app.js:744-747 | iteration i of the checkpoint loop visits the checkpoint of rank i |
| Feedback.IssuesFrom | app.js:747-825 | the iterations from i on raise at most two issues per remaining checkpoint, in checkpoint order, none tagged with a checkpoint before i |
| Feedback.AllIssues | app.js:743-825 | at most eight issues in checkpoint order, and the issues tagged with each checkpoint are exactly the ones its rules raise on the angles at that checkpoint |
| Feedback.IssuesFromTagged | app.js:743-825 | the loop from iteration i on contributes, for a checkpoint of rank at least i, exactly that checkpoint's issues, and nothing for an earlier checkpoint |
| Feedback.FirstFive | app.js:827 | a prefix of the issues, of length five, or all of them when there are fewer |
| Feedback.FirstMinIndex | app.js:831-832 | the position of the least score, and the first such position |
| Feedback.BucketOf | app.js:834-842 | early below 33% of the length, middle below 67%, late otherwise |
| Feedback.WorstSection | app.js:829-845 | a worst-phase item exactly when some score is below 70, carrying the least score and the bucket of its first position |
| Feedback.ConsistencySection | app.js:847-858 | at most one inconsistency item, and none for an empty list |
| Feedback.StdDevThreshold | app.js:853-855 | the item appears exactly when the standard deviation exceeds 15 |
| Feedback.EqualScoresAreConsistent | app.js:847-858 | equal scores have that score as their mean and never trigger the item |
| Feedback.SnapSection | app.js:860-877 | no advice unless all four wrist angles are defined; then snap harder exactly when the snap difference is below -5, snap softer exactly when it is above 10, and nothing exactly when it lies in [-5, 10] |
| Feedback.MaxOf | app.js:881 | the largest score, which is one of the scores |
| Feedback.PraiseSection | app.js:879-888 | praise exactly when the mean is at least 75 and some score exceeds 95; the tip exactly when the mean is at least 85; praise comes before the tip and neither repeats |
| Feedback.GenerateFeedback | app.js:710-891 | the score line and its band come first; at most 13 items |
| Feedback.Assemble | app.js:710-891 | the sections are concatenated in order: the length is the sum of the section lengths and the first two items come from the head |
| Feedback.FeedbackOrder | app.js:710-891 | the section rank never decreases along the feedback (score line, band, timing, issues, worst phase, consistency, snap, praise and tip), and the items of each rank are exactly that section's items |
| Feedback.BriefFeedback | static/app_github.js:541-555 | exactly the score line and its band |
| Feedback.SameAnglesNoIssues | app.js:751-823 | equal angles on both sides never raise an issue |
| Feedback.NoIssuesFrom | app.js:747-825 | with the same shot on both sides no loop iteration raises an issue |
| Feedback.SameSnap | app.js:860-877 | equal wrist angles on both sides never give snap advice |
| Feedback.SelfShotSections | app.js:728-877 | a shot compared with itself gets no timing item, no checkpoint issue and no snap advice |
| Feedback.FullScoreSections | app.js:714-888 | scores of 100 throughout give mean 100, no worst phase, no inconsistency, and both praise and tip |
| Feedback.SelfFeedback | app.js:710-891 | identical shots with all scores 100 get exactly: score 100, Excellent, praise, tip |
| Compare.SeriesCloseness | app.js:910-911 | one score in [0, 100] per user sample |
| Compare.CompareShots | app.js:900-928 | insufficient data exactly when a shot has fewer than two frames with a form value; otherwise one score per user sample in [0, 100] and a score line whose mean is in [0, 100], then its band; the brief copy gives only those two items |
| Compare.FeedbackFor | static/app_github.js:541-555 | both copies start with the score line and its band; the brief copy stops there |
| Compare.SelfCloseness | app.js:910-911 | a shot compared with itself scores 100 at every sample |
| Compare.SelfComparison | app.js:900-928 | a shot compared with itself in either copy gets scores of 100, a score of 100 and the Excellent band |
| Compare.SelfComparisonFull | app.js:913-919 | in the full copy a self-comparison yields exactly score, Excellent, praise and tip |
| Compare.CheckpointsInsideShot | app.js:913-919 | during a comparison every checkpoint index lands inside the raw shot record list |

### Remarks on the code

- A user index with 2h mapped benchmark indices is scored against index h of the list. That is the upper of the two middle entries (`Closeness.UpperMiddle`); the model follows the code.
- The checkpoint index is computed from the length of the form series but reads the raw shot records (`Feedback.EventAngles`). When frames without angles were dropped, the record read is not the one at that position of the series. `Compare.CheckpointsInsideShot` proves the index is always in range.
- The tie order of the backtracking (up, then left, then diagonal) means a series compared with itself need not follow the diagonal (`Warping.SelfPathNotDiagonal`). The scores are still all 100 (`Closeness.IdenticalSeriesScoreFull`).
- `process_video` returns whatever is buffered at the end of the video, including a capture that never closed (`Offline.ProcessVideoKeepsUnfinishedCapture`).
- The Python scripts store a computed angle of exactly 0.0 as None (`Offline.StoredAngle`).

## Left out

- Camera access, drawing, the Chart.js display, the e-mail sending, page layout and timers (`setTimeout`): user interface and I/O with no bearing on the computed values.
- Video decoding and the pose estimator: a video is the sequence of per-frame observations it produces. `cap.isOpened()` failing is I/O and is not modelled.
- The numeric value of `acos` and the conversion to degrees: floating-point trigonometry, kept as an opaque parameter.
- Floating-point rounding and NaN propagation: reals are exact. An empty score list is the only NaN the model carries, as `None` for the mean.
- `normalize_pose_orientation` in the Python scripts: its result feeds only the stored `landmarks` array, which no modelled operation reads.
- The `landmarks` array stored with each record (33 points, or NaN triples): no modelled operation reads it.
- The `lastPrintTime` throttle and progress printing: they affect only console output.
- The manual stop buttons (`stopBenchmarkRecording` called by the user): an external event.
- The final JSON/JS file writing and the summary statistics printed by the Python scripts.
- The JavaScript `z || 0`: it maps a missing z to 0. The model's landmarks always carry a z.
- Offline.ProcessVideo: requires fps > 0 once a frame has been read. Python divides by `fps` after each successful read, so a zero rate raises ZeroDivisionError at the first frame read; with no readable frame it returns None. A negative rate is not modelled: a frame rate is never negative, and with one the recorded times would run backwards.
- Offline.ProcessWindow: requires fps > 0 unless the first read fails. The division by `fps` follows a successful read; when the first read fails, Python returns an empty window. A negative rate is not modelled, as for `ProcessVideo`.
- Closeness.UserCloseness: requires every path pair to index the benchmark series. An out-of-range pair would read `undefined` and score NaN in JavaScript; the path `dtw` returns always satisfies this.
- Feedback.GenerateFeedback: its own contract states only the first two items and the length bound. The order of the sections and the content of each are stated by `Feedback.FeedbackOrder`, and the whole list for identical shots by `Feedback.SelfFeedback`.
- Feedback.ConsistencySection: its own contract is one-directional. The threshold is stated by `Feedback.StdDevThreshold`, through the variance on squares.
- Message wording, emoji and `toFixed` rounding: each message is a tagged item carrying its numbers.
