# Random video montage: a verified model of the editing core

The program takes a set of video files and a target length. It cuts random
clips out of them, plays the clips one after another onto a canvas with
random zoom and horizontal flips, and records the canvas. This project
models the deterministic core of that pipeline in Dafny and proves what it
promises:

- **Validation** (`validation.dfy`): the start button's input check. It rejects
  an empty file list first. It then rejects any field that parsed to NaN and
  any reversed clip-length or zoom range.
- **Planner** (`planner.dfy`): `getRandomClipLength` and `getRandomStartTime`.
  They pick a clip length between two percentages of a source's duration and
  a start offset inside the source.
- **Scheduler** (`scheduler.dfy`): the plan-building loop. It draws clips until
  their total length reaches the target. It never takes the same file twice
  in a row when there is more than one file.
- **SlotRing** (`slot_ring.dfy`): the four decode slots (video players). Each
  one is preloaded with a planned clip. The playback loop walks round them,
  preloading the next queued clip as it goes. The pure `Step`/`Run` functions
  specify the `DecodeRing` class, whose array of slots its methods update in
  place.
- **Geometry** (`geometry.dfy`): the crop rectangle that fits the source frame
  to the canvas's aspect ratio, the random zoom window inside it, and the
  zoom and flip decisions.
- **Chunks** (`chunks.dfy`): how the recorder keeps the encoded chunks it is
  handed.
- **Wrappers** (`wrappers.dfy`): the optional-value and result types the
  other modules share.

Every `Math.random()` draw is an explicit parameter in `[0, 1)`. The planning
loop takes one stream of draws per use (file index, clip length, start time),
indexed by round. Each file is represented by its index and its duration. The
wall-clock deadline of the playback loop is a budget of loop rounds.

## Model

| member | source | states |
|---|---|---|
| Validation.Check | script.js:29-49 | An empty file list gives the no-files error, and only it does. The check passes exactly when there are files, every field is a number, and both ranges are in order. A passing check returns the settings the form holds. |
| Validation.CheckForPlanning | script.js:34-46 | The corrected check: it fails with the no-files error exactly when there are no files, and passes exactly the settings `Check` passes whose minimum clip length is positive. Those settings satisfy `0 < minClipLength <= maxClipLength`, which is what `BuildPlan` needs to terminate. |
| Validation.CheckAcceptsEnteredSettings | script.js:34-49 | A form filled in with ordered settings and at least one file passes and yields exactly those settings. A form with a reversed range never passes. |
| Planner.Lerp | script.js:252 | A draw scaled by a non-negative width and shifted by `low` lies in `[low, low + width]`, in `[low, low + width)` when the width is positive, and is exactly `low` for width 0. With a negative width it is at most `low`, and below it for a positive draw. |
| Planner.ClipLength | script.js:249-252 | The length lies between the two percentages of the duration: exactly the minimum when they are equal, in `[min, max)` when min < max and the duration is positive. |
| Planner.StartTime | script.js:257-258 | When the clip fits, the start is non-negative and the clip ends inside the source. When it does not fit, the start is not positive, and it is negative when its draw is positive. |
| Planner.PlannedClipFitsSource | script.js:249-258 | With percentages `0 <= min <= max <= 100`, the chosen clip lies inside its source. |
| Planner.OverlongClipStartsBeforeZero | script.js:249-258 | With a minimum percentage above 100, every clip is longer than its source. Its start time is then negative for any positive draw. |
| Scheduler.Eligible | script.js:123-128 | The eligible indices are exactly the file indices other than the last one used, in increasing order. |
| Scheduler.EligibleIndices | script.js:123-128 | The loop that collects eligible indices computes `Eligible`. |
| Scheduler.ChooseIndex | script.js:120-133 | The chosen file is a valid index. It is 0 with a single file, and differs from the previous file when there are several. |
| Scheduler.NextClip | script.js:120-138 | One planning round picks a valid file that is not the previous file (or file 0 when there is only one). |
| Scheduler.PlanRound | script.js:120-139 | The imperative round, with its eligible-index loop, computes `NextClip`. |
| Scheduler.NextClipBounds | script.js:134-138 | A planned clip is at least the minimum share of its source's duration. With a maximum of at most 100 percent, it fits inside its source. |
| Scheduler.Rounds | script.js:119-141 | `k` planning rounds produce exactly `k` clips. |
| Scheduler.RoundsNoImmediateRepeat | script.js:117-133 | In any number of rounds, no file is used twice in a row when there are several files. |
| Scheduler.RoundsFitSources | script.js:134-138 | In any number of rounds with percentages at most 100, every clip lies inside its source. |
| Scheduler.PlanProperties | script.js:113-141 | For any minimum percentage from 0 up, a finished plan is empty when the target is not positive. It never repeats a file back to back. With percentages at most 100, every clip lies inside its source. |
| Scheduler.BuildPlan | script.js:113-141 | The loop terminates. Its plan is the sequence of planning rounds. The plan's total reaches the target, and every proper prefix falls short of it. |
| Scheduler.ZeroBoundsTotal | script.js:119-139 | With both clip-length bounds at 0 percent, any number of rounds plans a total of exactly 0. |
| Scheduler.ZeroBoundsNeverReachTarget | script.js:119-139 | With both clip-length bounds at 0 percent and a positive target, the plan of any number of rounds has no prefix that reaches the target, so the loop never ends. |
| SlotRing.InitialPreload | script.js:156-176 | An empty plan stops before playback. Otherwise slot 0 is the current slot and there are four slots. |
| SlotRing.PreloadPopsInQueueOrder | script.js:161-176 | The preload binds the first min(4, n) planned clips to slots 0..3 in plan order. Later slots stay empty. The bound clips followed by the queue are the whole plan. |
| SlotRing.Step | script.js:206-224 | One playback round keeps the ring well formed. What it changes is stated by `StepRebinds`. |
| SlotRing.StepRebinds | script.js:206-224 | A round moves the current index to `(current + 1) % 4` and pops the queue's first clip. As written, that clip is bound to the new current slot and every other slot is unchanged. Under the refill, it is bound to the slot just played, which is unbound when the queue is empty, and every other slot is unchanged. |
| SlotRing.Run | script.js:188-225 | The playback loop renders at most `budget` clips. When it stops before the deadline, the current slot is empty. |
| SlotRing.CurrentCycles | script.js:224 | After the loop, the current slot has advanced by the number of rendered clips, modulo 4. |
| SlotRing.AsWrittenKeepsSlotsBound | script.js:207-219 | The as-written preload never unbinds a slot. |
| SlotRing.AsWrittenRunsUntilDeadline | script.js:189-190 | With every slot bound, the as-written loop never leaves early: it renders exactly `budget` clips. |
| SlotRing.AsWrittenLongPlanNeverStops | script.js:157-225 | With four or more planned clips, the as-written loop never stops on an unbound slot: it renders a clip in every round the budget allows, so only the deadline ends it. |
| SlotRing.AsWrittenSkipsPreloadedClips | script.js:207-219 | With more than four planned clips, the as-written loop renders clip 0 and then clip 4, skipping preloaded clip 1. |
| SlotRing.AsWrittenFiveClips | script.js:157-225 | With exactly five planned clips, the as-written loop renders clips 0, 4, 2 and 3, losing only clip 1. A fifth round replays clip 0. |
| SlotRing.AsWrittenDropsClipOne | script.js:207-219 | On a concrete five-clip plan, the as-written loop's first two rendered clips differ from the plan's first two. The refill loop's match them. |
| SlotRing.RefillRendersInOrder | script.js:207-224 | Under the refill policy, a ring holding the pending clips renders them in order, up to the budget, and stops when they run out. |
| SlotRing.RefillPlaysWholePlan | script.js:157-225 | Preload followed by refill playback renders exactly the plan's first min(budget, n) clips, in order. |
| SlotRing.DecodeRing.constructor | script.js:145-153 | Four empty players, the planned queue, slot 0 current, nothing rendered. |
| SlotRing.DecodeRing.Preload | script.js:156-176 | The preload returns false on an empty plan. Otherwise the players' state becomes `InitialPreload` of the queue. |
| SlotRing.DecodeRing.Advance | script.js:190-224 | One in-place round moves the state to `Step` of the old state. It renders the current clip and records it as the previous clip. |
| SlotRing.DecodeRing.Play | script.js:183-225 | The in-place loop reaches `Run`'s final ring. It renders `Run`'s clips and leaves the last of them as the previous clip. |
| Geometry.BaseCrop | script.js:291-305 | The crop lies inside the frame and is non-empty. It has the canvas's aspect ratio, spans the frame's full width or full height, and is centred. |
| Geometry.ZoomFactor | script.js:308 | The factor lies between `minZoom/100` and `maxZoom/100`, and is exactly `minZoom/100` when the two are equal. |
| Geometry.ZoomWindow | script.js:309-314 | The window is the base crop scaled down by the factor, in both dimensions. |
| Geometry.ZoomWindowInside | script.js:307-314 | With a factor of at least 1, the zoom window lies inside the base crop. |
| Geometry.ZoomBelowOneOverflows | script.js:308-314 | With a factor below 1, the zoom window is wider and taller than the base crop. |
| Geometry.ZoomBelowOneLeavesFrame | script.js:291-314 | With a factor below 1, the zoom window does not lie inside the video frame, because the base crop spans the frame's full width or full height. |
| Geometry.ClipTransform | script.js:286-322 | Zoom is applied exactly when its draw is below `zoomProbability/100`, and flip exactly when its draw is below `flipProbability/100`. |
| Geometry.UnzoomedCropIsBase | script.js:286-316 | For any probabilities, a clip that is not zoomed is drawn from the base crop. |
| Geometry.CropInsideFrame | script.js:286-316 | With `100 <= minZoom <= maxZoom`, the crop drawn from lies inside the source frame and keeps the canvas's aspect ratio, zoomed or not. |
| Geometry.NoEffectsAtZeroProbability | script.js:286-322 | With zero zoom and flip probabilities, nothing is zoomed or flipped, and the crop is the base crop. |
| Geometry.FixedZoomAlwaysApplied | script.js:286-316 | With a 100 % zoom probability and a fixed 150 % zoom, the zoom is always applied and the crop is the base crop divided by 1.5. |
| Chunks.Kept | script.js:86-90 | No more chunks are kept than delivered, and every kept chunk is non-empty. |
| Chunks.KeptAppend | script.js:86-90 | Keeping chunks from successive deliveries is the same as keeping them from all deliveries at once. |
| Chunks.KeptHoldsAllBytes | script.js:86-90 | Dropping missing and empty chunks loses no bytes. The kept chunks concatenate to every delivered byte, in order. |
| Chunks.ChunkLog.OnDataAvailable | script.js:86-90 | A present, non-empty chunk is appended after the earlier ones. Any other event leaves the list unchanged. |
| Chunks.ChunkLog.constructor | script.js:65 | The chunk list starts empty. |

## Left out

- Progress messages, the DOM, the download button and object URLs: output only, with no effect on the computation.
- MediaRecorder setup, the H.264-to-default codec fallback, `captureStream`, and building the final Blob: browser APIs. Chunk contents are modelled as bytes.
- `getVideoDuration` and the asynchronous metadata and seek callbacks of `preloadClip`: durations are inputs, and preloading binds a clip to a slot at once.
- `playActiveClip`'s per-frame drawing loop, the one-second cross-dissolve, and the clip and deadline timers: animation timing. Only the crop, zoom and flip decisions it makes once per clip are modelled.
- The trailing wait after playback: only a timer.
- Floating-point rounding: lengths, times and geometry use exact reals. The canvas size is a positive real rather than a whole number of pixels. NaN is modelled only in the form fields, as a missing value. The form's real fields cannot hold `Infinity`, which `parseFloat` returns for that text and which passes the `isNaN` test.
- The wall clock: the playback deadline is a budget of loop rounds.
- Scheduler.NextClip: the draw streams are indexed by round, so with a single file the index draw of that round is unused. The source draws nothing in that case, which shifts the later draws. The set of possible plans is the same.
- Scheduler.BuildPlan: requires positive durations and `minClipLength > 0`. Without them the source's loop need not terminate, because a clip of length 0 never brings the total closer to the target (see Findings).
- Planner.StartTime: a start time that comes out negative when `maxClipLength > 100` is not clamped, as in the source. The model proves that it happens.
- Geometry.BaseCrop: requires positive video and canvas dimensions. A zero dimension makes the source divide by zero.
- Geometry.ClipTransform: requires a non-zero zoom factor when zoom applies (the source divides by it). A factor below 1 is allowed. The crop then overflows the base crop (`ZoomBelowOneOverflows`) and the video frame (`ZoomBelowOneLeavesFrame`).
- Decoder and playback errors (`onerror` rejections): the source has no recovery path for them.

## Findings

| source | as written | input that shows it | evidently intended | confidence | as-written member | corrected member |
|---|---|---|---|---|---|---|
| script.js:207-219 | During playback, the next queued clip is preloaded into slot `(current + 1) % 4` while the current clip plays. After the initial preload, that slot already holds a clip that has not played. Slots are never unbound, so once four clips are loaded the exit at line 190 never fires. | A plan of five clips: the rendered order is clip 0, clip 4, clip 2, clip 3, so clip 1 is lost. Each lost clip leaves its length unplayed, so the loop can reach the end of the plan before the deadline and then replays clip 0. With seven or more clips, clips 1-3 are all lost. | Each planned clip plays once, in plan order, and playback ends when the plan runs out. This holds when the slot the current clip vacates is refilled after `await playPromise` (line 220), or unbound once the queue is empty. | not executed | SlotRing.AsWrittenFiveClips | SlotRing.RefillPlaysWholePlan |
| script.js:34-46 | The input check accepts `minClipLength = 0` with `maxClipLength = 0`. Every planned clip then has length 0, so for a positive `finalLength` the planning loop at line 119 never ends. | `minClipLength = maxClipLength = 0`, `finalLength = 10`, any files. | The check rejects a minimum clip length that is not positive. Every clip then has a positive length, and the planning loop terminates. | not executed | Scheduler.ZeroBoundsNeverReachTarget | Validation.CheckForPlanning |
