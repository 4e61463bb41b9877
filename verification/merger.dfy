/**
 * `Merger` of src/merger.rs: the reduction wrapped with a selectable combine,
 * worker spawning, `finish` and `finish_and_join`.
 */
module Merger {
  import opened Wrappers
  import opened Image
  import opened Lighten
  import opened Reduction

  datatype MergeAction = Add | Max

  /**
   * The combine the workers of a merger apply. `merge_add` and `merge_max` are
   * called in src/merger.rs but not defined in src/image.rs, so both are
   * parameters.
   */
  function Kernel(mode: MergeAction, mergeAdd: Combine, mergeMax: Combine): Combine {
    match mode
    case Add => mergeAdd
    case Max => mergeMax
  }

  datatype Merger = Merger(mode: MergeAction, state: State)

  /** `Merger::new`: an empty queue, `done` unset, and no worker thread yet. */
  function New(action: MergeAction): (m: Merger)
    ensures m.mode == action
    ensures m.state.queue == [] && !m.state.done && m.state.workers == []
    ensures forall mergeAdd, mergeMax :: Inv(Kernel(action, mergeAdd, mergeMax), m.state)
  {
    var m := Merger(action, Start(0));
    assert forall mergeAdd, mergeMax :: Inv(Kernel(action, mergeAdd, mergeMax), m.state) by {
      forall mergeAdd, mergeMax
        ensures Inv(Kernel(action, mergeAdd, mergeMax), m.state)
      {
        StartSatisfiesInvariants(Kernel(action, mergeAdd, mergeMax), 0);
      }
    }
    m
  }

  /** The steps `spawn_workers(n)` takes: one new thread at a time. */
  function Spawns(n: nat): (trace: seq<Action>)
    ensures |trace| == n && forall i :: 0 <= i < n ==> trace[i] == Spawn
  {
    seq(n, _ => Spawn)
  }

  /** `spawn_workers(n)` adds `n` running workers and touches nothing else. */
  lemma {:induction false} SpawnWorkersAddsThreads(combine: Combine, s: State, n: nat)
    ensures Run(combine, s, Spawns(n)).Some?
    ensures Run(combine, s, Spawns(n)).value == s.(workers := s.workers + seq(n, _ => Idle))
    decreases n
  {
    if n > 0 {
      var s' := s.(workers := s.workers + [Idle]);
      assert Spawns(n)[0] == Spawn && Spawns(n)[1..] == Spawns(n - 1);
      SpawnWorkersAddsThreads(combine, s', n - 1);
      assert s'.workers + seq(n - 1, _ => Idle) == s.workers + seq(n, _ => Idle);
    }
  }

  /** `finish`: raises `done`, which nothing lowers again, and moves no frame. */
  function Finish(m: Merger): (r: Merger)
    ensures r.state.done && r.mode == m.mode
    ensures r.state.queue == m.state.queue && r.state.workers == m.state.workers
    ensures r.state.pushed == m.state.pushed && r.state.blendProgress == m.state.blendProgress
  {
    m.(state := m.state.(done := true))
  }

  /** What a call of `finish_and_join` observes: still joining running threads, or returned with the popped frame. */
  datatype JoinOutcome = Joining | Returned(result: Option<Image>)

  /**
   * `finish_and_join`: raise `done`, wait until every worker thread has
   * returned, then pop the last frame of the queue.
   */
  function FinishAndJoin(m: Merger): (r: JoinOutcome)
    ensures r.Returned? <==> AllExited(m.state.workers)
    ensures r.Returned? ==> r.result == TakeLast(m.state)
  {
    var f := Finish(m);
    if AllExited(f.state.workers) then Returned(TakeLast(f.state)) else Joining
  }

  /** `finish` is the `SetDone` step of the reduction. */
  lemma FinishIsSetDone(combine: Combine, m: Merger)
    ensures Step(combine, m.state, SetDone) == Some(Finish(m).state)
  {
  }

  /**
   * Whatever the interleaving since `Merger::new`, once `finish_and_join` returns:
   * it returns `None` exactly when no frame was pushed and a single frame
   * unchanged; with at least one spawned worker in `Max` mode and a lightening
   * `merge_max` it returns the pointwise maximum of every frame pushed; with no
   * worker ever spawned it returns the frame pushed last, unmerged. With workers,
   * exactly one frame is left to pop after `n - 1` merges of `n` frames, in either
   * mode. With workers
   * and a kernel that keeps `self`'s resolution and EXIF handle, the frame
   * returned has those of some pushed frame, and in `Max` mode the common shape
   * of the pushed frames when they share one.
   */
  lemma FinishAndJoinResult(mode: MergeAction, mergeAdd: Combine, mergeMax: Combine, trace: seq<Action>)
    requires Run(Kernel(mode, mergeAdd, mergeMax), New(mode).state, trace).Some?
    requires FinishAndJoin(Merger(mode, Run(Kernel(mode, mergeAdd, mergeMax), New(mode).state, trace).value)).Returned?
    ensures var s := Run(Kernel(mode, mergeAdd, mergeMax), New(mode).state, trace).value;
            var r := FinishAndJoin(Merger(mode, s)).result;
            var inputs := PushedImages(trace);
            && (r.None? <==> |inputs| == 0)
            && (|inputs| == 1 ==> r == Some(inputs[0]))
            && (|s.workers| > 0 && mode == Max && Lightens(mergeMax) && |inputs| > 0 ==>
                  r.value.rawImageData == JoinAll(inputs))
            && (|s.workers| > 0 && |inputs| > 0 ==> |s.queue| == 1 && s.blendProgress == |inputs| - 1)
            && (|s.workers| == 0 && |inputs| > 0 ==> r == Some(inputs[|inputs| - 1]))
            && (|s.workers| > 0 && |inputs| > 0 && KeepsHeader(Kernel(mode, mergeAdd, mergeMax)) ==>
                  HeaderOf(r.value) in Headers(inputs))
            && (forall width: nat, height: nat ::
                  (|s.workers| > 0 && mode == Max && Lightens(mergeMax) && KeepsHeader(mergeMax) &&
                   |inputs| > 0 && AllShaped(inputs, width, height)) ==> Shaped(r.value, width, height))
  {
    var combine := Kernel(mode, mergeAdd, mergeMax);
    var s := Run(combine, New(mode).state, trace).value;
    RunSnoc(combine, New(mode).state, trace, SetDone);
    FinishIsSetDone(combine, Merger(mode, s));
    PushedImagesAppend(trace, [SetDone]);
    assert PushedImages([SetDone]) == [];
    if |s.workers| > 0 {
      var f := Finish(Merger(mode, s)).state;
      assert Run(combine, Start(0), trace + [SetDone]) == Some(f);
      assert FinishAndJoin(Merger(mode, s)).result == TakeLast(f);
      ReductionOutcome(combine, 0, trace + [SetDone]);
      assert mode == Max ==> combine == mergeMax;
      assert PushedImages(trace + [SetDone]) == PushedImages(trace);
    } else {
      UnmergedWithoutWorkers(combine, trace);
    }
  }

  /**
   * One worker round of `queue_worker` in a merger: the last frame is popped as
   * `v1`, the one before as `v2`, and `merge_add(v1, v2)` in `Add` mode or
   * `merge_max(v1, v2)` in `Max` mode is appended, one frame fewer than before.
   */
  lemma WorkerRoundUsesMode(mode: MergeAction, mergeAdd: Combine, mergeMax: Combine, s: State, w: nat)
    requires Step(Kernel(mode, mergeAdd, mergeMax), s, Take2(w)).Some?
    ensures var combine := Kernel(mode, mergeAdd, mergeMax);
            var t := Step(combine, s, Take2(w)).value;
            var n := |s.queue|;
            var v1, v2 := s.queue[n - 1], s.queue[n - 2];
            && Step(combine, t, PushResult(w)).Some?
            && Step(combine, t, PushResult(w)).value.queue
                 == s.queue[..n - 2] + [if mode == Add then mergeAdd(v1, v2) else mergeMax(v1, v2)]
            && Step(combine, t, PushResult(w)).value.blendProgress == s.blendProgress + 1
  {
    MergeRound(Kernel(mode, mergeAdd, mergeMax), s, w);
  }

  /**
   * From any state reached since `Merger::new`, after `finish` some schedule of
   * the workers lets every one of them return, so `finish_and_join` returns.
   * No schedule runs forever instead: `Reduction.WorkerRunsAfterDoneAreBounded`.
   */
  method FinishAndJoinCompletes(mode: MergeAction, mergeAdd: Combine, mergeMax: Combine, trace: seq<Action>)
    returns (schedule: seq<Action>, joined: Merger)
    requires Run(Kernel(mode, mergeAdd, mergeMax), New(mode).state, trace).Some?
    ensures var combine := Kernel(mode, mergeAdd, mergeMax);
            var before := Run(combine, New(mode).state, trace).value;
            && Run(combine, Finish(Merger(mode, before)).state, schedule) == Some(joined.state)
            && joined.mode == mode
            && FinishAndJoin(joined).Returned?
            && joined.state.pushed == before.pushed
  {
    var combine := Kernel(mode, mergeAdd, mergeMax);
    var before := Run(combine, New(mode).state, trace).value;
    RunPreservesInvariants(combine, New(mode).state, trace);
    var f := Finish(Merger(mode, before));
    assert Inv(combine, f.state);
    var t;
    schedule, t := CompleteAfterFinish(combine, f.state);
    joined := Merger(mode, t);
  }
}
