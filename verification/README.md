# rusty-trails: the lighten-merge reduction, in Dafny

rusty-trails stacks astrophotography raw frames into one star-trail frame. Each
decoded frame (`Image`) is pushed into a shared `Vec<Image>`. A pool of
`queue_worker` threads keeps popping the last two frames, merging them with the
per-pixel maximum (`Image::merge`), and pushing the result back. A `done` flag
tells the workers to stop once at most one frame is left. That frame is the
stacked result.

This project models that reduction:

- `image.dfy` (module `Image`): a frame as a sequence of `u16` samples with
  its resolution, EXIF handle and weight. It covers `load_from_raw` once the
  decoder has returned, and the lighten merge `Image::merge`. The merge is the
  least upper bound in the "lighten order" `Below`: a result is no longer than
  its operands and at least as bright at every position it has.
- `lighten.dfy` (module `Lighten`): `JoinAll` is the reference left-to-right
  lighten merge of a whole collection. It is characterised as the least upper
  bound of the collection, and pointwise as "shortest length, brightest sample".
- `reduction.dfy` (module `Reduction`): the shared queue, the `done` flag and
  the worker threads as a sequential transition system. It is generic in the
  combine function. The steps are `Push`, `Spawn`, `Take2`, `PushResult`,
  `Wait`, `SetDone` and `Exit`. `Take2`, `Wait` and `Exit` are each one
  queue-lock section. `Push` and `PushResult` are a queue-lock section together
  with the progress-counter increment that follows it under a second lock.
  `src/merger.rs` has no decode counter, so for a `Merger` the model's
  `decodeProgress` has no counterpart in the source.
  `Spawn` and `SetDone` take no lock. The queue lock is released between
  popping a pair and pushing its merge, so a worker's held pair is part of the
  state.
  - Invariant `Inv` keeps the frame counts, the progress counters and the exit
    condition straight. The counter equations hold at every step of the model
    only because each push includes its increment.
  - Invariant `LightenInv` says the queue plus the in-flight merge results have
    the same upper bounds as all frames pushed so far. So they have the same
    pointwise maximum.
  - Together these give the final result whatever the interleaving. Since the
    join depends only on which frames were decoded (`JoinAllPermutation`), the
    order in which `par_iter` finishes them does not change the result either.
  - Once `done` is set, every worker step lowers a measure of the work left,
    so no schedule of the workers runs forever, and a state where no worker
    can move is one where all have returned. A schedule method also builds
    one run that lets every worker return.
- `merger.dfy` (module `Merger`): the `Merger` of src/merger.rs. It covers the
  `MergeAction` kernel selection, `new`, `spawn_workers`, `finish` and
  `finish_and_join`.
- `startrails.dfy` (module `Startrails`): the driver in src/main.rs. It covers
  the mode flag, `process_image`'s push, the workers wired to `Image::merge`,
  and the final `pop().unwrap()`.
- `wrappers.dfy`: the `Option` type returned by `Vec::pop`.

Samples are integers in `0..0xFFFF`. The per-pixel maximum never leaves that
range, so no wrap-around needs modelling.

Two details of the code shape the model:

- `Image::merge` does not reject frames of different sizes. It zips the sample
  vectors, so it truncates to the shorter one, and it takes the resolution and
  EXIF handle from `self`. `Merge` does the same. Commutativity, associativity
  and idempotence of the merged samples are therefore proved for operands of
  any lengths. The reduction also proves that the frame written has the
  resolution and EXIF handle of some decoded frame. When all decoded frames
  have one resolution and one sample per pixel, the frame written has that
  resolution and that many samples.
- `merge_add` and `merge_max` are called in src/merger.rs but not defined in
  src/image.rs, so the combine is a parameter.

`mod merger` is not declared in src/main.rs, so only the main.rs loop is
actually built. Both loops are the same transition system with different
combines.

## Model

| member | source | states |
|---|---|---|
| Image.LoadFromRaw | src/image.rs:19-35 | a frame is built only from integer data whose sample count equals `width * height`; it then carries exactly that data, resolution, EXIF handle and weight; float data panics (`unimplemented!`) whatever its size, and a count mismatch panics (`assert_eq!`) |
| Image.ZipMax | src/image.rs:38-41 | the zipped maximum is as long as the shorter operand and holds `max(a[i], b[i])` at every index |
| Image.Merge | src/image.rs:37-50 | each merged sample is at least each operand's sample and equals one of them, the length is the minimum of the operand lengths, resolution and EXIF handle come from `self`, the weight is reset to 1 |
| Image.MergeKeepsCommonLength | src/image.rs:38-41 | on operands of equal length the merge keeps that length |
| Image.MergeCommutes | src/image.rs:38-40 | merged samples do not depend on operand order |
| Image.MergeAssociates | src/image.rs:38-40 | merged samples do not depend on how three frames are grouped |
| Image.MergeIdempotent | src/image.rs:38-40 | merging a frame with itself gives back its samples |
| Image.ZipMaxIsJoin | src/image.rs:38-40 | the merge lies above both operands in the lighten order and below every common upper bound: it is their least upper bound, which is why any pairing order gives the same result |
| Lighten.JoinAll | src/image.rs:37-41 | the left-to-right merge of a non-empty collection lies above every frame in it |
| Lighten.JoinAllIsLeast | src/image.rs:37-41 | the left-to-right merge lies below every upper bound of the collection |
| Lighten.JoinAllPointwise | src/image.rs:37-41 | the left-to-right merge is as long as some frame, the shortest, and each of its samples is the sample some frame has at that position, the brightest |
| Lighten.JoinAllKeepsShape | src/main.rs:155-159 | a frame with the joined samples and the header of one of the frames has their common resolution and one sample per pixel, when all of them share one |
| Lighten.JoinAllPermutation | src/main.rs:97-100 | two collections holding the same frames, in any order, have the same merged samples |
| Lighten.SameUpperBoundsAsJoin | src/main.rs:130-135 | a frame bounded above by exactly the same sequences as a collection has the collection's merged samples |
| Reduction.Start | src/main.rs:67-95 | a fresh queue, history and progress, `done` unset, and exactly `threads` worker threads, none holding a pair or returned |
| Reduction.Step | src/main.rs:118-138 | one atomic transition: a push before `done` appends its frame and counts one decode; `Take2` pops the last two frames into an idle worker when at least two are queued; `PushResult` appends the worker's `combine(v1, v2)` and counts one merge; an idle worker waits or returns on at most one frame, according to `done`; `SetDone` sets `done`; no other transition exists |
| Reduction.TakeLast | src/main.rs:110-111 | the popped frame is the last one queued, and `None` exactly for an empty queue |
| Reduction.StartSatisfiesInvariants | src/merger.rs:24-31 | a fresh queue with any number of idle workers satisfies the bookkeeping, lighten and header invariants, holds no frame and has `done` unset |
| Reduction.StepPreservesInv | src/main.rs:118-138 | every step keeps the bookkeeping: queued frames + 2 × held pairs + completed merges = pushed frames; decode progress = pushed frames; something is queued or in flight once anything was pushed; before any merge the queue is the pushed frames; once all workers have returned, `done` is set and at most one frame is left |
| Reduction.StepPreservesLightenInv | src/main.rs:130-135 | for a lighten combine, every step keeps the queue plus in-flight results bounded by exactly the same sequences as all pushed frames |
| Reduction.StepPreservesHeaderInv | src/image.rs:45-47 | for a combine that keeps `v1`'s resolution and EXIF handle, every step keeps each queued frame and each in-flight result carrying the header of some pushed frame |
| Reduction.RunPreservesHeaderInv | src/main.rs:118-138 | the header invariant holds after any interleaving of steps |
| Reduction.RunPreservesInvariants | src/main.rs:118-138 | both invariants hold after any interleaving of steps |
| Reduction.RunRecordsPushes | src/main.rs:149 | the pushed-frame history of a run is exactly the frames its `Push` steps carried, in order |
| Reduction.DoneStaysSet | src/merger.rs:51-53 | once `done` is set no interleaving clears it |
| Reduction.ExitOnlyWhenDrained | src/main.rs:120-122 | a worker can return exactly when it is idle, at most one frame is queued and `done` is set, and returning moves no frame |
| Reduction.WaitChangesNothing | src/main.rs:120-127 | a worker waits exactly when it is idle, at most one frame is queued and `done` is unset, and waiting changes nothing |
| Reduction.MergeRound | src/main.rs:130-136 | a worker round pops the last frame as `v1` and the one before as `v2`, appends `combine(v1, v2)`, shrinks the queue by one and advances blend progress by one |
| Reduction.DrainedOutcome | src/main.rs:118-138 | in any state meeting the invariants where every worker has returned: the queue is empty exactly when nothing was pushed; otherwise one frame is left after `n - 1` merges; one input comes back unchanged; for a lighten combine the frame left has the merged samples of all pushed frames |
| Reduction.ReachedInvariants | src/main.rs:67-138 | every state reached from a fresh start meets the bookkeeping invariant, the lighten invariant for a lighten combine and the header invariant for a header-keeping combine, and its history is exactly the frames the trace pushed |
| Reduction.DrainedHeader | src/main.rs:118-138 | in any state meeting the invariants where every worker has returned, the frame left has the header of a pushed frame, and under a lighten combine the common shape of the pushed frames |
| Reduction.ReductionOutcome | src/main.rs:118-138 | for every interleaving from a fresh start in which all workers return: `None` exactly for zero inputs, otherwise exactly one frame left after `n - 1` blend increments for `n` inputs, the input itself for one input, for a lighten combine the left-to-right merge of all inputs, for a header-keeping combine the resolution and EXIF handle of some input, and with both the inputs' common resolution and sample count |
| Reduction.UnmergedWithoutWorkers | src/merger.rs:24-31 | with no worker thread ever spawned nothing is merged: the queue is the pushed frames in order, and popping gives the last one pushed |
| Reduction.CompleteAfterFinish | src/merger.rs:55-64 | once `done` is set there is a schedule after which every worker has returned; it pushes no new frame and keeps the invariants |
| Reduction.StepAfterDoneDecreases | src/main.rs:118-138 | once `done` is set no frame can be pushed and no worker can wait, raising `done` again changes nothing, and every pop, result push or return lowers a measure of two per queued frame, four per held pair and one per idle worker |
| Reduction.WorkerRunsAfterDoneAreBounded | src/main.rs:118-138 | once `done` is set, every run of worker steps is no longer than that measure, so no schedule of the workers goes on forever |
| Reduction.StuckAfterDoneMeansAllExited | src/main.rs:118-138 | once `done` is set, a state in which no worker can pop, push a result or return is one in which every worker has returned |
| Merger.Kernel | src/merger.rs:84-87 | the workers combine with `merge_add` in `Add` mode and `merge_max` in `Max` mode |
| Merger.New | src/merger.rs:24-31 | a new merger has the chosen mode, an empty queue, `done` unset, no worker threads, and meets the bookkeeping invariant for either kernel |
| Merger.SpawnWorkersAddsThreads | src/merger.rs:38-49 | spawning `n` workers appends `n` idle threads and changes nothing else |
| Merger.Finish | src/merger.rs:51-53 | `finish` sets `done` and leaves the queue, the threads, the pushed frames and the progress untouched |
| Merger.FinishAndJoin | src/merger.rs:55-64 | `finish_and_join` returns exactly when every worker thread has returned, and then yields the last frame of the queue, `None` for an empty one |
| Merger.FinishIsSetDone | src/merger.rs:51-53 | `finish` is exactly the reduction's step that sets `done` |
| Merger.WorkerRoundUsesMode | src/merger.rs:80-90 | a merger worker pops `v1` (last) and `v2` (next to last) and appends `merge_add(v1, v2)` in `Add` mode or `merge_max(v1, v2)` in `Max` mode, advancing progress once |
| Merger.FinishAndJoinResult | src/merger.rs:55-64 | for every interleaving since `new`, when `finish_and_join` returns: `None` exactly when nothing was pushed; a single input unchanged; with workers, in either mode, exactly one frame left to pop after `n - 1` merges; in `Max` mode with a lightening `merge_max` and at least one worker, the pointwise maximum of all inputs; with workers and a header-keeping kernel, the resolution and EXIF handle of some input, and in `Max` mode the inputs' common shape; with no worker, the frame pushed last |
| Merger.FinishAndJoinCompletes | src/merger.rs:55-64 | from any state reached since `new`, after `finish` some schedule of the workers lets `finish_and_join` return, with no frame added |
| Startrails.ParseMode | src/main.rs:51-55 | `"falling"` gives `Falling`, `"raising"` gives `Raising`, every other string gives `Normal`, each in both directions |
| Startrails.ModeFlag | src/main.rs:33 | each mode has an accepted command-line value (`falling`, `raising`, `normal`) that parses back to that mode |
| Startrails.MainCombineLightens | src/main.rs:134 | the workers in `main` combine with a merge whose samples are the lighten merge and which keeps `v1`'s resolution and EXIF handle |
| Startrails.ProcessImage | src/main.rs:148-150 | `process_image` is possible exactly before `done`; it appends exactly its frame at the end of the queue and of the pushed-frame history, advances decode progress by one and changes nothing else |
| Startrails.FinalImage | src/main.rs:110-111 | the frame handed to the DNG writer is the last queued frame, and an empty queue is the `unwrap` panic |
| Startrails.MainOutcomeIsMaxOfInputs | src/main.rs:97-111 | whatever the interleaving, once all workers are joined: zero inputs make `pop().unwrap()` panic; otherwise the frame written is the pointwise maximum of all decoded frames after `n - 1` blend increments, a single input is written unchanged, the frame written carries the resolution and EXIF handle of a decoded frame, and when every frame is `width` x `height` with one sample per pixel, so is the frame written |
| Startrails.DecodeOrderIrrelevant | src/main.rs:97-111 | two runs of `main` whose workers all return and that decoded the same frames, in whatever order `par_iter` finished them, both panic or both write a frame with the same samples |
| Startrails.DriveMain | src/main.rs:88-106 | spawning the workers, pushing every decoded frame, raising `done` and joining is a valid run that pushes exactly the frames and ends with every worker returned |
| Startrails.RunMain | src/main.rs:88-111 | when every input file has loaded, the run of `main` ends in the panic for no input, else in the merged maximum with the resolution and EXIF handle of a decoded frame and their common shape, and in the frame itself for one input |
| Startrails.ThreeFrameExample | src/image.rs:37-41 | frames `[10, 200]`, `[50, 100]` and `[30, 255]` stack to `[50, 255]` |

## Left out

- Raw decoding (`rawloader::decode_file`) and EXIF reading (`load_exif`,
  `exif::Reader`) are file I/O in external libraries. Their results are
  parameters of `LoadFromRaw`, and their failures (`unwrap` panics) are not
  modelled.
- `load_from_raw` returns `Result<Image, &str>` but never an `Err`. It fails
  only by panicking, and the model has the two panics written in it.
- Reduction.Step: folds the progress-counter increment into the push it
  follows. The source pushes under the queue lock and then increments under
  the progress bar's own lock (src/main.rs:135-136, src/main.rs:149-150,
  src/merger.rs:89-90). Between the two, `decodeProgress == |pushed|` and the
  frame-count equation of `Inv` do not hold in the source. The results once
  every worker has returned are unaffected, because by then every increment
  has happened.
- Startrails.RunMain: starts from frames that have already loaded. In the
  source `process_image` unwraps `load_from_raw` (src/main.rs:148). A file
  with floating-point data or a sample count that disagrees with its
  resolution panics inside the parallel decode (src/main.rs:98-100), before
  `done` is set, and no DNG is written. `Image.LoadFromRaw` models both
  panics, but `RunMain` has no outcome for them.
- Image.LoadFromRaw: compares the sample count with the unbounded product
  `width * height`. In the source that product is `usize` arithmetic. On
  overflow a debug build panics and a release build wraps, and after a wrap
  the `assert_eq!` can accept a sample count unrelated to the real resolution.
  Neither behaviour is modelled.
- DNG output (`write_dng`, the foreign `buildDNG`, its C++ wrapper and the
  build script) is foreign code and file output.
- `entries.first().unwrap()` (src/main.rs:113) belongs to that output step and
  is left out. With zero inputs it is never reached, because
  `data.pop().unwrap()` at src/main.rs:111 panics first (`EmptyQueuePanic`).
- Threads, `thread::sleep`, rayon's `par_iter` and the `Relaxed` atomic ordering
  of `done` are left out. Concurrency is modelled only as an interleaving of
  atomic steps under one lock. The model does not capture a stale read of
  `done` that a weak memory model might allow.
- The 20 ms sleep is the `Wait` step, and timing is not modelled. No fairness
  assumption is needed for the drain: once `done` is set, `Wait` is disabled
  and every run of worker steps is bounded (`WorkerRunsAfterDoneAreBounded`).
  Before `done` the model does not bound how long workers wait.
- A push after `done` is set is not an enabled step. `main` pushes every frame
  before it raises `done` (src/main.rs:97-103), and a `Merger` caller is
  assumed to do the same. `get_queue` (src/merger.rs:34-36) would let a caller
  push after `finish`. That case is outside the model.
- Progress-bar rendering, glob discovery, sorting of entries and clap parsing
  are left out. The two progress counters are plain numbers in the state. Only
  the mode-string mapping and its accepted values are modelled.
- The `f32` weight computation in `process_image` (src/main.rs:142-146) is
  floating point. The weight is stored in `intensity` but never applied to
  samples, so the model takes it as a `real` parameter.
- `merge_add` and `merge_max` are not defined in src/image.rs. They are
  parameters of `Kernel`. The sample result for a merger is stated only for
  `Max` mode with a `merge_max` whose samples are the lighten merge. The
  header result is stated only for a kernel that keeps `self`'s resolution and
  EXIF handle. In `Add` mode only the bookkeeping results hold. No saturating
  or wrapping behaviour is assumed.
- `write_dng` takes its EXIF data from the first input file, not from the
  frame's EXIF handle (src/main.rs:113). That choice is left out with the rest
  of the DNG output.
- Lock poisoning (`lock().unwrap()`) and the `unwrap_or(())` on thread joins
  are not modelled.
- Startrails.MainOutcomeIsMaxOfInputs requires at least one worker thread.
  `main` spawns `num_cpus::get()` workers, which is never zero. The zero-worker
  case is covered for `Merger` by Reduction.UnmergedWithoutWorkers.
