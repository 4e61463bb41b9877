/**
 * The shared queue of frames, the `done` flag and the pool of `queue_worker`
 * threads, as a sequential transition system. Each worker step and each push
 * is one queue-lock section of the source; a push also takes the progress
 * counter's increment, which the source performs just after, under the
 * progress bar's own lock. Spawning a worker and raising `done` take no lock
 * in the source and are steps of their own here. A worker releases the queue lock between popping two frames and pushing their
 * merge, so the pair it holds is part of the state.
 *
 * The system is parametric in the combine function the workers apply.
 */
module Reduction {
  import opened Wrappers
  import opened Image
  import opened Lighten

  /** What a worker does with the frames it popped, `v1` (the last) and `v2` (the one before). */
  type Combine = (Image, Image) -> Image

  /** The combine treats samples exactly as the lighten merge does. */
  ghost predicate Lightens(combine: Combine) {
    forall a, b :: combine(a, b).rawImageData == ZipMax(a.rawImageData, b.rawImageData)
  }

  /** One `queue_worker` thread. */
  datatype Worker =
    | Idle                            // at the top of its loop
    | Holding(v1: Image, v2: Image)   // popped a pair, lock released, result not yet pushed
    | Exited                          // returned from `queue_worker`

  /**
   * The shared `Vec<Image>`, the `done` flag, the worker threads and the two
   * progress counters (decoded frames, completed merges). `pushed` records every
   * frame producers have pushed, in order.
   */
  datatype State = State(
    queue: seq<Image>,
    done: bool,
    workers: seq<Worker>,
    pushed: seq<Image>,
    decodeProgress: nat,
    blendProgress: nat)

  /** The atomic steps; `w` names a worker thread. */
  datatype Action =
    | Push(img: Image)   // a producer pushes a decoded frame and advances decode progress
    | Spawn              // one more worker thread is started
    | Take2(w: nat)      // worker `w` pops the last two frames
    | PushResult(w: nat) // worker `w` pushes the merge of its pair and advances blend progress
    | Wait(w: nat)       // worker `w` finds at most one frame, `done` unset, and sleeps
    | SetDone            // `done` is set
    | Exit(w: nat)       // worker `w` finds at most one frame with `done` set and returns

  /** A fresh queue with `threads` workers already spawned, none of them holding a pair or returned. */
  function Start(threads: nat): (s: State)
    ensures |s.workers| == threads && forall i :: 0 <= i < threads ==> s.workers[i] == Idle
    ensures NoneHolding(s.workers) && (threads > 0 ==> !AllExited(s.workers))
    ensures s.queue == [] && s.pushed == [] && !s.done
    ensures s.decodeProgress == 0 && s.blendProgress == 0
  {
    var s := State([], false, seq(threads, _ => Idle), [], 0, 0);
    assert threads > 0 ==> !s.workers[0].Exited?;
    s
  }

  /**
   * One atomic step, or `None` when it is not enabled. Producers push only before
   * `done` is set: `main` pushes every frame before it raises `done`, and a
   * `Merger` caller is assumed to do the same.
   */
  function Step(combine: Combine, s: State, a: Action): Option<State> {
    match a
    case Push(img) =>
      if s.done then None
      else Some(s.(queue := s.queue + [img], pushed := s.pushed + [img],
                   decodeProgress := s.decodeProgress + 1))
    case Spawn =>
      Some(s.(workers := s.workers + [Idle]))
    case Take2(w) =>
      if w < |s.workers| && s.workers[w].Idle? && |s.queue| >= 2 then
        var n := |s.queue|;
        Some(s.(queue := s.queue[..n - 2],
                workers := s.workers[w := Holding(s.queue[n - 1], s.queue[n - 2])]))
      else None
    case PushResult(w) =>
      if w < |s.workers| && s.workers[w].Holding? then
        var h := s.workers[w];
        Some(s.(queue := s.queue + [combine(h.v1, h.v2)], workers := s.workers[w := Idle],
                blendProgress := s.blendProgress + 1))
      else None
    case Wait(w) =>
      if w < |s.workers| && s.workers[w].Idle? && |s.queue| <= 1 && !s.done then Some(s)
      else None
    case SetDone =>
      Some(s.(done := true))
    case Exit(w) =>
      if w < |s.workers| && s.workers[w].Idle? && |s.queue| <= 1 && s.done then
        Some(s.(workers := s.workers[w := Exited]))
      else None
  }

  /** Runs a whole interleaving; `None` if some step in it is not enabled. */
  function Run(combine: Combine, s: State, trace: seq<Action>): Option<State>
    decreases |trace|
  {
    if |trace| == 0 then Some(s)
    else
      match Step(combine, s, trace[0])
      case None => None
      case Some(s') => Run(combine, s', trace[1..])
  }

  /** The frames a trace pushes, in order. */
  function PushedImages(trace: seq<Action>): seq<Image>
    decreases |trace|
  {
    if |trace| == 0 then []
    else (if trace[0].Push? then [trace[0].img] else []) + PushedImages(trace[1..])
  }

  lemma {:induction false} PushedImagesAppend(t1: seq<Action>, t2: seq<Action>)
    ensures PushedImages(t1 + t2) == PushedImages(t1) + PushedImages(t2)
    decreases |t1|
  {
    if |t1| > 0 {
      assert (t1 + t2)[0] == t1[0] && (t1 + t2)[1..] == t1[1..] + t2;
      PushedImagesAppend(t1[1..], t2);
    } else {
      assert t1 + t2 == t2;
    }
  }

  /** Popping the last frame of the queue once the workers are joined; `None` when the queue is empty. */
  function TakeLast(s: State): Option<Image> {
    if |s.queue| == 0 then None else Some(s.queue[|s.queue| - 1])
  }

  // ---------------------------------------------------------------------------
  // Frames in flight
  // ---------------------------------------------------------------------------

  /** The merge result a worker is about to push, if it holds a pair. */
  function Pending(combine: Combine, w: Worker): multiset<Image> {
    if w.Holding? then multiset{combine(w.v1, w.v2)} else multiset{}
  }

  /** The merge results all workers are about to push. */
  function InFlight(combine: Combine, ws: seq<Worker>): multiset<Image>
    decreases |ws|
  {
    if |ws| == 0 then multiset{}
    else InFlight(combine, ws[..|ws| - 1]) + Pending(combine, ws[|ws| - 1])
  }

  /** The queue together with the in-flight merge results. */
  function Items(combine: Combine, s: State): multiset<Image> {
    multiset(s.queue) + InFlight(combine, s.workers)
  }

  predicate AllExited(ws: seq<Worker>) {
    forall i :: 0 <= i < |ws| ==> ws[i].Exited?
  }

  predicate NoneHolding(ws: seq<Worker>) {
    forall i :: 0 <= i < |ws| ==> !ws[i].Holding?
  }

  /** Replacing one worker's state trades its pending result for the new one's. */
  lemma {:induction false} InFlightUpdate(combine: Combine, ws: seq<Worker>, w: nat, nw: Worker)
    requires w < |ws|
    ensures InFlight(combine, ws[w := nw]) + Pending(combine, ws[w])
         == InFlight(combine, ws) + Pending(combine, nw)
  {
    var n := |ws| - 1;
    var ws' := ws[w := nw];
    if w == n {
      assert ws'[..n] == ws[..n];
      calc {
        InFlight(combine, ws') + Pending(combine, ws[w]);
        InFlight(combine, ws[..n]) + Pending(combine, nw) + Pending(combine, ws[n]);
        InFlight(combine, ws) + Pending(combine, nw);
      }
    } else {
      var front := ws[..n];
      assert ws'[..n] == front[w := nw];
      assert ws'[n] == ws[n];
      assert front[w] == ws[w];
      InFlightUpdate(combine, front, w, nw);
      calc {
        InFlight(combine, ws') + Pending(combine, ws[w]);
        InFlight(combine, front[w := nw]) + Pending(combine, ws[n]) + Pending(combine, ws[w]);
        InFlight(combine, front[w := nw]) + Pending(combine, front[w]) + Pending(combine, ws[n]);
        InFlight(combine, front) + Pending(combine, nw) + Pending(combine, ws[n]);
        InFlight(combine, ws) + Pending(combine, nw);
      }
    }
  }

  /** A worker that picks up a pair adds its merge result to what is in flight. */
  lemma InFlightTake(combine: Combine, ws: seq<Worker>, w: nat, v1: Image, v2: Image)
    requires w < |ws| && !ws[w].Holding?
    ensures InFlight(combine, ws[w := Holding(v1, v2)]) == InFlight(combine, ws) + multiset{combine(v1, v2)}
  {
    InFlightUpdate(combine, ws, w, Holding(v1, v2));
    calc {
      InFlight(combine, ws[w := Holding(v1, v2)]);
      InFlight(combine, ws[w := Holding(v1, v2)]) + Pending(combine, ws[w]);
      InFlight(combine, ws) + Pending(combine, Holding(v1, v2));
    }
  }

  /** A worker that pushes its result takes it out of what is in flight. */
  lemma InFlightRelease(combine: Combine, ws: seq<Worker>, w: nat)
    requires w < |ws| && ws[w].Holding?
    ensures InFlight(combine, ws[w := Idle]) + multiset{combine(ws[w].v1, ws[w].v2)} == InFlight(combine, ws)
  {
    InFlightUpdate(combine, ws, w, Idle);
    calc {
      InFlight(combine, ws[w := Idle]) + multiset{combine(ws[w].v1, ws[w].v2)};
      InFlight(combine, ws[w := Idle]) + Pending(combine, ws[w]);
      InFlight(combine, ws) + Pending(combine, Idle);
      InFlight(combine, ws);
    }
  }

  /** A worker that returns had nothing in flight. */
  lemma InFlightExit(combine: Combine, ws: seq<Worker>, w: nat)
    requires w < |ws| && !ws[w].Holding?
    ensures InFlight(combine, ws[w := Exited]) == InFlight(combine, ws)
  {
    InFlightUpdate(combine, ws, w, Exited);
    calc {
      InFlight(combine, ws[w := Exited]);
      InFlight(combine, ws[w := Exited]) + Pending(combine, ws[w]);
      InFlight(combine, ws) + Pending(combine, Exited);
      InFlight(combine, ws);
    }
  }

  lemma InFlightSpawn(combine: Combine, ws: seq<Worker>)
    ensures InFlight(combine, ws + [Idle]) == InFlight(combine, ws)
  {
    assert (ws + [Idle])[..|ws|] == ws;
  }

  /** Workers that hold no pair have nothing in flight. */
  lemma {:induction false} NothingInFlight(combine: Combine, ws: seq<Worker>)
    requires NoneHolding(ws)
    ensures InFlight(combine, ws) == multiset{}
  {
    if |ws| > 0 {
      NothingInFlight(combine, ws[..|ws| - 1]);
    }
  }

  // ---------------------------------------------------------------------------
  // Invariants
  // ---------------------------------------------------------------------------

  /**
   * Bookkeeping that holds for every combine:
   * - decode progress counts the pushed frames;
   * - each merge takes two frames and gives back one, so queued frames, twice the
   *   held pairs and the completed merges add up to the pushed frames;
   * - once something was pushed, some frame is queued or in flight;
   * - before any merge, the queue holds exactly the pushed frames;
   * - once every worker has returned, `done` is set and at most one frame is left;
   * - while no worker was ever spawned, the queue is exactly the pushed frames.
   */
  ghost predicate Inv(combine: Combine, s: State) {
    && s.decodeProgress == |s.pushed|
    && |s.queue| + 2 * |InFlight(combine, s.workers)| + s.blendProgress == |s.pushed|
    && (|s.pushed| > 0 ==> |s.queue| + |InFlight(combine, s.workers)| > 0)
    && (s.blendProgress == 0 && |InFlight(combine, s.workers)| == 0 ==>
          multiset(s.queue) == multiset(s.pushed))
    && (|s.workers| > 0 && AllExited(s.workers) ==> s.done && |s.queue| <= 1)
    && (|s.workers| == 0 ==> s.queue == s.pushed)
  }

  /**
   * For a lighten combine: the queue with the in-flight results has the same upper
   * bounds, hence the same pointwise maximum, as all frames pushed so far.
   */
  ghost predicate LightenInv(combine: Combine, s: State) {
    SameUpperBounds(Items(combine, s), multiset(s.pushed))
  }

  lemma StartSatisfiesInvariants(combine: Combine, threads: nat)
    ensures Inv(combine, Start(threads)) && LightenInv(combine, Start(threads))
    ensures HeaderInv(combine, Start(threads))
    ensures TakeLast(Start(threads)) == None && !Start(threads).done
  {
    var s := Start(threads);
    NothingInFlight(combine, s.workers);
    if threads > 0 {
      assert !s.workers[0].Exited?;
    }
  }

  lemma PushPreservesInv(combine: Combine, s: State, img: Image)
    requires Inv(combine, s) && Step(combine, s, Push(img)).Some?
    ensures Inv(combine, Step(combine, s, Push(img)).value)
  {
    var t := Step(combine, s, Push(img)).value;
    assert t.workers == s.workers;
    assert multiset(t.queue) == multiset(s.queue) + multiset{img};
    assert multiset(t.pushed) == multiset(s.pushed) + multiset{img};
  }

  lemma SpawnPreservesInv(combine: Combine, s: State)
    requires Inv(combine, s)
    ensures Inv(combine, Step(combine, s, Spawn).value)
  {
    var t := Step(combine, s, Spawn).value;
    InFlightSpawn(combine, s.workers);
    assert !t.workers[|s.workers|].Exited?;
  }

  lemma Take2PreservesInv(combine: Combine, s: State, w: nat)
    requires Inv(combine, s) && Step(combine, s, Take2(w)).Some?
    ensures Inv(combine, Step(combine, s, Take2(w)).value)
  {
    var t := Step(combine, s, Take2(w)).value;
    var n := |s.queue|;
    assert t.workers == s.workers[w := Holding(s.queue[n - 1], s.queue[n - 2])];
    InFlightTake(combine, s.workers, w, s.queue[n - 1], s.queue[n - 2]);
    assert !t.workers[w].Exited?;
  }

  lemma PushResultPreservesInv(combine: Combine, s: State, w: nat)
    requires Inv(combine, s) && Step(combine, s, PushResult(w)).Some?
    ensures Inv(combine, Step(combine, s, PushResult(w)).value)
  {
    var t := Step(combine, s, PushResult(w)).value;
    assert t.workers == s.workers[w := Idle];
    InFlightRelease(combine, s.workers, w);
    assert !t.workers[w].Exited?;
  }

  lemma ExitPreservesInv(combine: Combine, s: State, w: nat)
    requires Inv(combine, s) && Step(combine, s, Exit(w)).Some?
    ensures Inv(combine, Step(combine, s, Exit(w)).value)
  {
    var t := Step(combine, s, Exit(w)).value;
    assert t.workers == s.workers[w := Exited];
    InFlightExit(combine, s.workers, w);
  }

  lemma StepPreservesInv(combine: Combine, s: State, a: Action)
    requires Inv(combine, s) && Step(combine, s, a).Some?
    ensures Inv(combine, Step(combine, s, a).value)
  {
    match a
    case Push(img) => PushPreservesInv(combine, s, img);
    case Spawn => SpawnPreservesInv(combine, s);
    case Take2(w) => Take2PreservesInv(combine, s, w);
    case PushResult(w) => PushResultPreservesInv(combine, s, w);
    case Wait(w) =>
    case SetDone =>
    case Exit(w) => ExitPreservesInv(combine, s, w);
  }

  lemma PushPreservesLightenInv(combine: Combine, s: State, img: Image)
    requires LightenInv(combine, s) && Step(combine, s, Push(img)).Some?
    ensures LightenInv(combine, Step(combine, s, Push(img)).value)
  {
    var t := Step(combine, s, Push(img)).value;
    assert Items(combine, t) == Items(combine, s) + multiset{img} by {
      assert t.queue == s.queue + [img];
    }
    assert multiset(t.pushed) == multiset(s.pushed) + multiset{img};
    forall c
      ensures IsUpperBound(Items(combine, t), c) <==> IsUpperBound(multiset(t.pushed), c)
    {
      UpperBoundOfAdd(Items(combine, s), img, c);
      UpperBoundOfAdd(multiset(s.pushed), img, c);
    }
  }

  /** Replacing two frames by their lighten merge changes no upper bound. */
  lemma UpperBoundOfMerged(rest: multiset<Image>, v1: Image, v2: Image, m: Image, c: seq<Sample>)
    requires m.rawImageData == ZipMax(v1.rawImageData, v2.rawImageData)
    ensures IsUpperBound(rest + multiset{m}, c)
        <==> IsUpperBound(rest + multiset{v2} + multiset{v1}, c)
  {
    UpperBoundOfAdd(rest, m, c);
    UpperBoundOfAdd(rest, v2, c);
    UpperBoundOfAdd(rest + multiset{v2}, v1, c);
    ZipMaxIsJoin(v1.rawImageData, v2.rawImageData, c);
    if Below(m.rawImageData, c) {
      BelowTransitive(v1.rawImageData, m.rawImageData, c);
      BelowTransitive(v2.rawImageData, m.rawImageData, c);
    }
  }

  lemma MergedKeepsUpperBounds(rest: multiset<Image>, v1: Image, v2: Image, m: Image, all: multiset<Image>)
    requires m.rawImageData == ZipMax(v1.rawImageData, v2.rawImageData)
    requires SameUpperBounds(rest + multiset{v2} + multiset{v1}, all)
    ensures SameUpperBounds(rest + multiset{m}, all)
  {
    forall c
      ensures IsUpperBound(rest + multiset{m}, c) <==> IsUpperBound(all, c)
    {
      UpperBoundOfMerged(rest, v1, v2, m, c);
    }
  }

  /** How a `Take2` step rearranges the queue and the in-flight results. */
  lemma Take2Items(combine: Combine, s: State, w: nat)
    requires Step(combine, s, Take2(w)).Some?
    ensures var t := Step(combine, s, Take2(w)).value;
            var n := |s.queue|;
            var rest := multiset(t.queue) + InFlight(combine, s.workers);
            && Items(combine, t) == rest + multiset{combine(s.queue[n - 1], s.queue[n - 2])}
            && Items(combine, s) == rest + multiset{s.queue[n - 2]} + multiset{s.queue[n - 1]}
  {
    var t := Step(combine, s, Take2(w)).value;
    var n := |s.queue|;
    var v1, v2 := s.queue[n - 1], s.queue[n - 2];
    assert t.queue == s.queue[..n - 2];
    assert t.workers == s.workers[w := Holding(v1, v2)];
    assert multiset(s.queue) == multiset(t.queue) + multiset{v2} + multiset{v1} by {
      SplitLastTwo(s.queue);
    }
    InFlightTake(combine, s.workers, w, v1, v2);
  }

  lemma SplitLastTwo(q: seq<Image>)
    requires |q| >= 2
    ensures multiset(q) == multiset(q[..|q| - 2]) + multiset{q[|q| - 2]} + multiset{q[|q| - 1]}
  {
    assert q == q[..|q| - 2] + [q[|q| - 2]] + [q[|q| - 1]];
  }

  lemma Take2PreservesLightenInv(combine: Combine, s: State, w: nat)
    requires Lightens(combine)
    requires LightenInv(combine, s) && Step(combine, s, Take2(w)).Some?
    ensures LightenInv(combine, Step(combine, s, Take2(w)).value)
  {
    var t := Step(combine, s, Take2(w)).value;
    var n := |s.queue|;
    var v1, v2 := s.queue[n - 1], s.queue[n - 2];
    Take2Items(combine, s, w);
    MergedKeepsUpperBounds(multiset(t.queue) + InFlight(combine, s.workers), v1, v2, combine(v1, v2), multiset(s.pushed));
  }

  /** Every step other than `Push` and `Take2` leaves the queued and in-flight frames, and the pushed ones, as they were. */
  lemma OtherStepsKeepItems(combine: Combine, s: State, a: Action)
    requires !a.Push? && !a.Take2? && Step(combine, s, a).Some?
    ensures Items(combine, Step(combine, s, a).value) == Items(combine, s)
    ensures Step(combine, s, a).value.pushed == s.pushed
  {
    var t := Step(combine, s, a).value;
    match a
    case Spawn =>
      InFlightSpawn(combine, s.workers);
    case PushResult(w) =>
      var h := s.workers[w];
      assert t.workers == s.workers[w := Idle];
      InFlightRelease(combine, s.workers, w);
      assert t.queue == s.queue + [combine(h.v1, h.v2)];
    case Wait(w) =>
    case SetDone =>
    case Exit(w) =>
      assert t.workers == s.workers[w := Exited];
      InFlightExit(combine, s.workers, w);
  }

  lemma StepPreservesLightenInv(combine: Combine, s: State, a: Action)
    requires Lightens(combine)
    requires LightenInv(combine, s) && Step(combine, s, a).Some?
    ensures LightenInv(combine, Step(combine, s, a).value)
  {
    if a.Push? {
      PushPreservesLightenInv(combine, s, a.img);
    } else if a.Take2? {
      Take2PreservesLightenInv(combine, s, a.w);
    } else {
      OtherStepsKeepItems(combine, s, a);
    }
  }

  // ---------------------------------------------------------------------------
  // Resolution and EXIF handle of the frames
  // ---------------------------------------------------------------------------

  /** The combine keeps the resolution and EXIF handle of `v1`, as `Image::merge` keeps those of `self`. */
  ghost predicate KeepsHeader(combine: Combine) {
    forall a, b :: HeaderOf(combine(a, b)) == HeaderOf(a)
  }

  /** Every queued frame and every in-flight merge result has the header of some pushed frame. */
  predicate HeaderInv(combine: Combine, s: State) {
    && (forall i :: 0 <= i < |s.queue| ==> HeaderOf(s.queue[i]) in Headers(s.pushed))
    && (forall w :: 0 <= w < |s.workers| && s.workers[w].Holding? ==>
          HeaderOf(combine(s.workers[w].v1, s.workers[w].v2)) in Headers(s.pushed))
  }

  lemma PushPreservesHeaderInv(combine: Combine, s: State, img: Image)
    requires HeaderInv(combine, s) && Step(combine, s, Push(img)).Some?
    ensures HeaderInv(combine, Step(combine, s, Push(img)).value)
  {
    var t := Step(combine, s, Push(img)).value;
    assert Headers(t.pushed) == Headers(s.pushed) + [HeaderOf(img)];
    forall i | 0 <= i < |t.queue|
      ensures HeaderOf(t.queue[i]) in Headers(t.pushed)
    {
      if i < |s.queue| {
        assert t.queue[i] == s.queue[i];
      } else {
        assert t.queue[i] == img;
      }
    }
  }

  lemma Take2PreservesHeaderInv(combine: Combine, s: State, w: nat)
    requires KeepsHeader(combine)
    requires HeaderInv(combine, s) && Step(combine, s, Take2(w)).Some?
    ensures HeaderInv(combine, Step(combine, s, Take2(w)).value)
  {
    var t := Step(combine, s, Take2(w)).value;
    var n := |s.queue|;
    assert t.workers == s.workers[w := Holding(s.queue[n - 1], s.queue[n - 2])];
    assert HeaderOf(combine(s.queue[n - 1], s.queue[n - 2])) == HeaderOf(s.queue[n - 1]);
  }

  lemma PushResultPreservesHeaderInv(combine: Combine, s: State, w: nat)
    requires HeaderInv(combine, s) && Step(combine, s, PushResult(w)).Some?
    ensures HeaderInv(combine, Step(combine, s, PushResult(w)).value)
  {
    var t := Step(combine, s, PushResult(w)).value;
    var h := s.workers[w];
    assert t.queue == s.queue + [combine(h.v1, h.v2)];
    assert t.workers == s.workers[w := Idle];
    forall i | 0 <= i < |t.queue|
      ensures HeaderOf(t.queue[i]) in Headers(t.pushed)
    {
      if i < |s.queue| {
        assert t.queue[i] == s.queue[i];
      }
    }
  }

  lemma StepPreservesHeaderInv(combine: Combine, s: State, a: Action)
    requires KeepsHeader(combine)
    requires HeaderInv(combine, s) && Step(combine, s, a).Some?
    ensures HeaderInv(combine, Step(combine, s, a).value)
  {
    var t := Step(combine, s, a).value;
    match a
    case Push(img) => PushPreservesHeaderInv(combine, s, img);
    case Spawn =>
      assert forall w :: 0 <= w < |s.workers| ==> t.workers[w] == s.workers[w];
    case Take2(w) => Take2PreservesHeaderInv(combine, s, w);
    case PushResult(w) => PushResultPreservesHeaderInv(combine, s, w);
    case Wait(w) =>
    case SetDone =>
    case Exit(w) =>
      assert t.workers == s.workers[w := Exited];
  }

  lemma {:induction false} RunPreservesHeaderInv(combine: Combine, s: State, trace: seq<Action>)
    requires KeepsHeader(combine)
    requires HeaderInv(combine, s) && Run(combine, s, trace).Some?
    ensures HeaderInv(combine, Run(combine, s, trace).value)
    decreases |trace|
  {
    if |trace| > 0 {
      StepPreservesHeaderInv(combine, s, trace[0]);
      RunPreservesHeaderInv(combine, Step(combine, s, trace[0]).value, trace[1..]);
    }
  }

  lemma {:induction false} RunPreservesInvariants(combine: Combine, s: State, trace: seq<Action>)
    requires Inv(combine, s) && Run(combine, s, trace).Some?
    ensures Inv(combine, Run(combine, s, trace).value)
    ensures Lightens(combine) && LightenInv(combine, s) ==>
              LightenInv(combine, Run(combine, s, trace).value)
    decreases |trace|
  {
    if |trace| > 0 {
      StepPreservesInv(combine, s, trace[0]);
      if Lightens(combine) && LightenInv(combine, s) {
        StepPreservesLightenInv(combine, s, trace[0]);
      }
      RunPreservesInvariants(combine, Step(combine, s, trace[0]).value, trace[1..]);
    }
  }

  /** The history field records exactly the frames the trace pushed. */
  lemma {:induction false} RunRecordsPushes(combine: Combine, s: State, trace: seq<Action>)
    requires Run(combine, s, trace).Some?
    ensures Run(combine, s, trace).value.pushed == s.pushed + PushedImages(trace)
    decreases |trace|
  {
    if |trace| > 0 {
      RunRecordsPushes(combine, Step(combine, s, trace[0]).value, trace[1..]);
    }
  }

  /** Nothing clears `done` once it is set. */
  lemma {:induction false} DoneStaysSet(combine: Combine, s: State, trace: seq<Action>)
    requires s.done && Run(combine, s, trace).Some?
    ensures Run(combine, s, trace).value.done
    decreases |trace|
  {
    if |trace| > 0 {
      DoneStaysSet(combine, Step(combine, s, trace[0]).value, trace[1..]);
    }
  }

  /** A worker returns only when at most one frame is queued and `done` is set, and returning moves no frame. */
  lemma ExitOnlyWhenDrained(combine: Combine, s: State, w: nat)
    ensures Step(combine, s, Exit(w)).Some? <==>
              w < |s.workers| && s.workers[w].Idle? && |s.queue| <= 1 && s.done
    ensures Step(combine, s, Exit(w)).Some? ==>
              Step(combine, s, Exit(w)).value.queue == s.queue
  {
  }

  /** With at most one frame and `done` unset, a worker sleeps and leaves the state as it was. */
  lemma WaitChangesNothing(combine: Combine, s: State, w: nat)
    ensures Step(combine, s, Wait(w)).Some? <==>
              w < |s.workers| && s.workers[w].Idle? && |s.queue| <= 1 && !s.done
    ensures Step(combine, s, Wait(w)) == None || Step(combine, s, Wait(w)) == Some(s)
  {
  }

  /**
   * A complete merge round by one worker: it pops the last frame as `v1` and the
   * one before it as `v2`, then appends `combine(v1, v2)`, so the queue shrinks by
   * one and blend progress advances by one.
   */
  lemma MergeRound(combine: Combine, s: State, w: nat)
    requires Step(combine, s, Take2(w)).Some?
    ensures var t := Step(combine, s, Take2(w)).value;
            var n := |s.queue|;
            && Step(combine, t, PushResult(w)).Some?
            && Step(combine, t, PushResult(w)).value.queue
                 == s.queue[..n - 2] + [combine(s.queue[n - 1], s.queue[n - 2])]
            && |Step(combine, t, PushResult(w)).value.queue| == n - 1
            && Step(combine, t, PushResult(w)).value.blendProgress == s.blendProgress + 1
            && Step(combine, t, PushResult(w)).value.workers == s.workers
  {
  }

  // ---------------------------------------------------------------------------
  // Outcome once every worker has returned
  // ---------------------------------------------------------------------------

  /** After all workers have returned, what is left is what the reduction promises. */
  lemma DrainedOutcome(combine: Combine, s: State)
    requires Inv(combine, s) && |s.workers| > 0 && AllExited(s.workers)
    ensures s.done
    ensures TakeLast(s).None? <==> |s.pushed| == 0
    ensures |s.pushed| > 0 ==> |s.queue| == 1 && s.blendProgress == |s.pushed| - 1
    ensures |s.pushed| == 1 ==> TakeLast(s) == Some(s.pushed[0])
    ensures Lightens(combine) && LightenInv(combine, s) && |s.pushed| > 0 ==>
              TakeLast(s).value.rawImageData == JoinAll(s.pushed)
  {
    NothingInFlight(combine, s.workers);
    if |s.pushed| == 1 {
      assert multiset(s.queue) == multiset(s.pushed);
      assert s.queue[0] in multiset(s.pushed);
    }
    if Lightens(combine) && LightenInv(combine, s) && |s.pushed| > 0 {
      assert s.queue == [s.queue[0]];
      assert Items(combine, s) == multiset{s.queue[0]};
      SameUpperBoundsAsJoin(s.queue[0], s.pushed);
    }
  }

  /** Every state reached from a fresh start meets the invariants, and its history is what the trace pushed. */
  lemma ReachedInvariants(combine: Combine, threads: nat, trace: seq<Action>)
    requires Run(combine, Start(threads), trace).Some?
    ensures Inv(combine, Run(combine, Start(threads), trace).value)
    ensures Lightens(combine) ==> LightenInv(combine, Run(combine, Start(threads), trace).value)
    ensures KeepsHeader(combine) ==> HeaderInv(combine, Run(combine, Start(threads), trace).value)
    ensures Run(combine, Start(threads), trace).value.pushed == PushedImages(trace)
  {
    var s0 := Start(threads);
    StartSatisfiesInvariants(combine, threads);
    assert Inv(combine, s0) && LightenInv(combine, s0) && HeaderInv(combine, s0) && s0.pushed == [];
    RunPreservesInvariants(combine, s0, trace);
    RunRecordsPushes(combine, s0, trace);
    if KeepsHeader(combine) {
      RunPreservesHeaderInv(combine, s0, trace);
    }
  }

  /**
   * After all workers have returned, the frame left has the header of a pushed
   * frame and, under a lighten combine, the common shape of the pushed frames.
   */
  lemma DrainedHeader(combine: Combine, s: State)
    requires Inv(combine, s) && HeaderInv(combine, s) && |s.workers| > 0 && AllExited(s.workers)
    ensures TakeLast(s).Some? <==> |s.pushed| > 0
    ensures |s.pushed| > 0 ==> HeaderOf(TakeLast(s).value) in Headers(s.pushed)
    ensures forall width: nat, height: nat ::
              (Lightens(combine) && LightenInv(combine, s) && |s.pushed| > 0 &&
               AllShaped(s.pushed, width, height)) ==> Shaped(TakeLast(s).value, width, height)
  {
    DrainedOutcome(combine, s);
    if |s.pushed| > 0 {
      assert HeaderOf(s.queue[0]) in Headers(s.pushed);
      if Lightens(combine) && LightenInv(combine, s) {
        forall width: nat, height: nat | AllShaped(s.pushed, width, height)
          ensures Shaped(TakeLast(s).value, width, height)
        {
          JoinAllKeepsShape(s.pushed, TakeLast(s).value, width, height);
        }
      }
    }
  }

  /**
   * Whatever the interleaving of producers and workers: once every worker has
   * returned, the queue is empty exactly when nothing was pushed; otherwise one
   * frame is left, `n - 1` merges were counted for `n` frames, a single frame comes
   * back unchanged, and under a lighten combine the frame left is the pointwise
   * maximum of all pushed frames.
   */
  lemma ReductionOutcome(combine: Combine, threads: nat, trace: seq<Action>)
    requires Run(combine, Start(threads), trace).Some?
    requires |Run(combine, Start(threads), trace).value.workers| > 0
    requires AllExited(Run(combine, Start(threads), trace).value.workers)
    ensures var s := Run(combine, Start(threads), trace).value;
            var inputs := PushedImages(trace);
            && s.done
            && (TakeLast(s).None? <==> |inputs| == 0)
            && (|inputs| > 0 ==> |s.queue| == 1)
            && (|inputs| > 0 ==> s.blendProgress == |inputs| - 1 && s.decodeProgress == |inputs|)
            && (|inputs| == 1 ==> TakeLast(s) == Some(inputs[0]))
            && (Lightens(combine) && |inputs| > 0 ==>
                  TakeLast(s).value.rawImageData == JoinAll(inputs))
            && (KeepsHeader(combine) && |inputs| > 0 ==>
                  HeaderOf(TakeLast(s).value) in Headers(inputs))
            && (forall width: nat, height: nat ::
                  (Lightens(combine) && KeepsHeader(combine) && |inputs| > 0 &&
                   AllShaped(inputs, width, height)) ==> Shaped(TakeLast(s).value, width, height))
  {
    var s := Run(combine, Start(threads), trace).value;
    ReachedInvariants(combine, threads, trace);
    DrainedOutcome(combine, s);
    if KeepsHeader(combine) {
      DrainedHeader(combine, s);
    }
  }

  /**
   * With no worker thread nothing is ever merged: the queue keeps every pushed
   * frame in order, and popping yields the last one pushed.
   */
  lemma UnmergedWithoutWorkers(combine: Combine, trace: seq<Action>)
    requires Run(combine, Start(0), trace).Some?
    requires |Run(combine, Start(0), trace).value.workers| == 0
    ensures var s := Run(combine, Start(0), trace).value;
            var inputs := PushedImages(trace);
            && s.queue == inputs && s.blendProgress == 0
            && TakeLast(s) == (if |inputs| == 0 then None else Some(inputs[|inputs| - 1]))
  {
    StartSatisfiesInvariants(combine, 0);
    RunPreservesInvariants(combine, Start(0), trace);
    RunRecordsPushes(combine, Start(0), trace);
    var s := Run(combine, Start(0), trace).value;
    NothingInFlight(combine, s.workers);
  }

  // ---------------------------------------------------------------------------
  // Every schedule after `done` drains
  // ---------------------------------------------------------------------------

  /** What a worker still has to do once `done` is set: a held pair costs a push and then the steps of an idle worker. */
  function WorkerCost(w: Worker): nat {
    match w
    case Idle => 1
    case Holding(_, _) => 4
    case Exited => 0
  }

  function WorkersCost(ws: seq<Worker>): nat
    decreases |ws|
  {
    if |ws| == 0 then 0 else WorkersCost(ws[..|ws| - 1]) + WorkerCost(ws[|ws| - 1])
  }

  /** A bound on the worker steps left once `done` is set: two per queued frame plus the cost of every worker. */
  function DrainMeasure(s: State): nat {
    2 * |s.queue| + WorkersCost(s.workers)
  }

  /** Replacing one worker's state trades its cost for the new one's. */
  lemma {:induction false} WorkersCostUpdate(ws: seq<Worker>, w: nat, nw: Worker)
    requires w < |ws|
    ensures WorkersCost(ws[w := nw]) + WorkerCost(ws[w]) == WorkersCost(ws) + WorkerCost(nw)
  {
    var n := |ws| - 1;
    if w == n {
      assert ws[w := nw][..n] == ws[..n];
    } else {
      assert ws[w := nw][..n] == ws[..n][w := nw];
      assert ws[..n][w] == ws[w];
      WorkersCostUpdate(ws[..n], w, nw);
    }
  }

  /**
   * Once `done` is set, `Push` and `Wait` are disabled, `SetDone` changes
   * nothing, and every `Take2`, `PushResult` or `Exit` lowers the measure.
   */
  lemma StepAfterDoneDecreases(combine: Combine, s: State, a: Action)
    requires s.done && Step(combine, s, a).Some?
    ensures !a.Push? && !a.Wait?
    ensures a.SetDone? ==> Step(combine, s, a).value == s
    ensures (a.Take2? || a.PushResult? || a.Exit?) ==>
              DrainMeasure(Step(combine, s, a).value) < DrainMeasure(s)
  {
    var t := Step(combine, s, a).value;
    match a
    case Take2(w) =>
      var n := |s.queue|;
      assert t.workers == s.workers[w := Holding(s.queue[n - 1], s.queue[n - 2])];
      WorkersCostUpdate(s.workers, w, Holding(s.queue[n - 1], s.queue[n - 2]));
    case PushResult(w) =>
      assert t.workers == s.workers[w := Idle];
      WorkersCostUpdate(s.workers, w, Idle);
    case Exit(w) =>
      assert t.workers == s.workers[w := Exited];
      WorkersCostUpdate(s.workers, w, Exited);
    case Push(_) =>
    case Spawn =>
    case Wait(_) =>
    case SetDone =>
  }

  /** The worker steps that can still happen: popping a pair, pushing a result, returning. */
  predicate WorkerStep(a: Action) {
    a.Take2? || a.PushResult? || a.Exit?
  }

  /**
   * After `done`, any run of worker steps is at most `DrainMeasure` long, so no
   * schedule of the workers goes on forever.
   */
  lemma {:induction false} WorkerRunsAfterDoneAreBounded(combine: Combine, s: State, trace: seq<Action>)
    requires s.done && Run(combine, s, trace).Some?
    requires forall i :: 0 <= i < |trace| ==> WorkerStep(trace[i])
    ensures |trace| <= DrainMeasure(s)
    decreases |trace|
  {
    if |trace| > 0 {
      StepAfterDoneDecreases(combine, s, trace[0]);
      var t := Step(combine, s, trace[0]).value;
      assert t.done;
      WorkerRunsAfterDoneAreBounded(combine, t, trace[1..]);
    }
  }

  /**
   * After `done`, a state in which no worker can pop, push or return is one in
   * which every worker has returned: a run of worker steps can only stop there.
   */
  lemma StuckAfterDoneMeansAllExited(combine: Combine, s: State)
    requires s.done
    requires forall a :: WorkerStep(a) ==> Step(combine, s, a).None?
    ensures AllExited(s.workers)
  {
    forall i | 0 <= i < |s.workers|
      ensures s.workers[i].Exited?
    {
      assert WorkerStep(Take2(i)) && WorkerStep(PushResult(i)) && WorkerStep(Exit(i));
      assert Step(combine, s, Take2(i)).None? && Step(combine, s, PushResult(i)).None?;
      assert Step(combine, s, Exit(i)).None?;
    }
  }

  lemma {:induction false} RunSnoc(combine: Combine, s: State, trace: seq<Action>, a: Action)
    requires Run(combine, s, trace).Some?
    ensures Run(combine, s, trace + [a]) == Step(combine, Run(combine, s, trace).value, a)
    decreases |trace|
  {
    if |trace| > 0 {
      assert (trace + [a])[1..] == trace[1..] + [a];
      RunSnoc(combine, Step(combine, s, trace[0]).value, trace[1..], a);
    }
  }

  lemma {:induction false} RunAppend(combine: Combine, s: State, t1: seq<Action>, t2: seq<Action>)
    requires Run(combine, s, t1).Some?
    ensures Run(combine, s, t1 + t2) == Run(combine, Run(combine, s, t1).value, t2)
    decreases |t1|
  {
    if |t1| > 0 {
      assert (t1 + t2)[0] == t1[0] && (t1 + t2)[1..] == t1[1..] + t2;
      RunAppend(combine, Step(combine, s, t1[0]).value, t1[1..], t2);
    } else {
      assert t1 + t2 == t2;
    }
  }

  /** Appends one enabled step to a run. */
  method Extend(combine: Combine, s: State, trace: seq<Action>, t: State, a: Action)
    returns (trace': seq<Action>, t': State)
    requires Run(combine, s, trace) == Some(t) && Step(combine, t, a).Some?
    ensures trace' == trace + [a] && Step(combine, t, a) == Some(t')
    ensures Run(combine, s, trace') == Some(t')
  {
    RunSnoc(combine, s, trace, a);
    trace' := trace + [a];
    t' := Step(combine, t, a).value;
  }

  /** Every worker holding a pair pushes its merge result. */
  method PushAllHeld(combine: Combine, s: State, trace0: seq<Action>, t0: State)
    returns (trace: seq<Action>, t: State)
    requires Run(combine, s, trace0) == Some(t0) && t0.done
    ensures Run(combine, s, trace) == Some(t) && t.done
    ensures |t.workers| == |t0.workers| && t.pushed == t0.pushed
    ensures NoneHolding(t.workers)
  {
    trace, t := trace0, t0;
    var w := 0;
    while w < |t.workers|
      invariant w <= |t.workers| == |t0.workers|
      invariant Run(combine, s, trace) == Some(t)
      invariant t.done && t.pushed == t0.pushed
      invariant forall i :: 0 <= i < w ==> !t.workers[i].Holding?
    {
      if t.workers[w].Holding? {
        trace, t := Extend(combine, s, trace, t, PushResult(w));
      }
      w := w + 1;
    }
  }

  /** A worker still running merges pairs until at most one frame is left. */
  method MergeDown(combine: Combine, s: State, trace0: seq<Action>, t0: State)
    returns (trace: seq<Action>, t: State)
    requires Run(combine, s, trace0) == Some(t0) && t0.done
    requires NoneHolding(t0.workers)
    ensures Run(combine, s, trace) == Some(t) && t.done
    ensures |t.workers| == |t0.workers| && t.pushed == t0.pushed
    ensures NoneHolding(t.workers)
    ensures |t.queue| <= 1 || AllExited(t.workers)
  {
    trace, t := trace0, t0;
    while 2 <= |t.queue| && !AllExited(t.workers)
      invariant |t.workers| == |t0.workers|
      invariant Run(combine, s, trace) == Some(t)
      invariant t.done && t.pushed == t0.pushed
      invariant NoneHolding(t.workers)
      decreases |t.queue|
    {
      var k :| 0 <= k < |t.workers| && !t.workers[k].Exited?;
      var n := |t.queue|;
      trace, t := Extend(combine, s, trace, t, Take2(k));
      assert |t.queue| == n - 2 && t.workers[k].Holding?;
      trace, t := Extend(combine, s, trace, t, PushResult(k));
    }
  }

  /** Every worker still running returns. */
  method ExitAll(combine: Combine, s: State, trace0: seq<Action>, t0: State)
    returns (trace: seq<Action>, t: State)
    requires Run(combine, s, trace0) == Some(t0) && t0.done
    requires NoneHolding(t0.workers)
    requires |t0.queue| <= 1 || AllExited(t0.workers)
    ensures Run(combine, s, trace) == Some(t)
    ensures |t.workers| == |t0.workers| && t.pushed == t0.pushed
    ensures AllExited(t.workers)
  {
    trace, t := trace0, t0;
    var w := 0;
    while w < |t.workers|
      invariant w <= |t.workers| == |t0.workers|
      invariant Run(combine, s, trace) == Some(t)
      invariant t.done && t.pushed == t0.pushed && t.queue == t0.queue
      invariant NoneHolding(t.workers)
      invariant forall i :: w <= i < |t.workers| ==> t.workers[i] == t0.workers[i]
      invariant forall i :: 0 <= i < w ==> t.workers[i].Exited?
    {
      if !t.workers[w].Exited? {
        assert !t0.workers[w].Exited?;
        var before := t.workers;
        trace, t := Extend(combine, s, trace, t, Exit(w));
        assert t.workers == before[w := Exited];
      }
      w := w + 1;
    }
  }

  /**
   * Once `done` is set, this schedule lets every worker return: holders push
   * their results, a running worker merges pairs until at most one frame is
   * left, and every running worker then returns. That every other schedule
   * also ends with all workers returned is `WorkerRunsAfterDoneAreBounded`
   * together with `StuckAfterDoneMeansAllExited`.
   */
  method CompleteAfterFinish(combine: Combine, s: State) returns (trace: seq<Action>, t: State)
    requires Inv(combine, s) && s.done
    ensures Run(combine, s, trace) == Some(t)
    ensures AllExited(t.workers) && |t.workers| == |s.workers|
    ensures t.pushed == s.pushed && Inv(combine, t)
  {
    trace, t := PushAllHeld(combine, s, [], s);
    trace, t := MergeDown(combine, s, trace, t);
    trace, t := ExitAll(combine, s, trace, t);
    RunPreservesInvariants(combine, s, trace);
  }
}
