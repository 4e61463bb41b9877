/**
 * The driver of src/main.rs: the stacking-mode flag, one push per decoded input
 * file, the lighten reduction wired to `Image::merge`, and the final pop.
 */
module Startrails {
  import opened Wrappers
  import opened Image
  import opened Lighten
  import opened Reduction

  datatype CometMode = Falling | Raising | Normal

  /** The mode flag: `"falling"` and `"raising"` select their modes, any other string is `Normal`. */
  function ParseMode(flag: string): (mode: CometMode)
    ensures mode == Falling <==> flag == "falling"
    ensures mode == Raising <==> flag == "raising"
    ensures mode == Normal <==> flag != "falling" && flag != "raising"
  {
    if flag == "falling" then Falling
    else if flag == "raising" then Raising
    else Normal
  }

  /** The value the command line accepts for each mode; it parses back to that mode. */
  function ModeFlag(mode: CometMode): (flag: string)
    ensures ParseMode(flag) == mode
  {
    match mode
    case Falling => "falling"
    case Raising => "raising"
    case Normal => "normal"
  }

  /** The workers combine with `Image::merge`. */
  function MainCombine(): Combine {
    Merge
  }

  /** `Image::merge` as the combine: lighten samples, `self`'s resolution and EXIF handle. */
  lemma MainCombineLightens()
    ensures Lightens(MainCombine())
    ensures KeepsHeader(MainCombine())
  {
  }

  /**
   * `process_image` once its file is decoded: push exactly that frame at the end
   * of the queue and advance decode progress by one, before `done` is raised.
   */
  function ProcessImage(s: State, img: Image): (r: Option<State>)
    ensures r.Some? <==> !s.done
    ensures r.Some? ==> && r.value.queue == s.queue + [img]
                        && r.value.pushed == s.pushed + [img]
                        && r.value.decodeProgress == s.decodeProgress + 1
                        && r.value.workers == s.workers && r.value.done == s.done
                        && r.value.blendProgress == s.blendProgress
  {
    Step(MainCombine(), s, Push(img))
  }

  /**
   * How the program ends once every frame has loaded: the frame handed to the
   * DNG writer, or the panic of `pop().unwrap()` on an empty queue.
   */
  datatype MainOutcome = Written(image: Image) | EmptyQueuePanic

  /** `data.pop().unwrap()` after every worker has been joined. */
  function FinalImage(s: State): MainOutcome {
    match TakeLast(s)
    case Some(img) => Written(img)
    case None => EmptyQueuePanic
  }

  /**
   * Whatever the interleaving of decoding and blending, once all `threads`
   * workers have returned: no input file means the final `unwrap` panics;
   * otherwise the frame written is the pointwise maximum of all decoded frames
   * (exactly the frame itself for one input) after `n - 1` blends; its
   * resolution and EXIF handle are those of a decoded frame, so when every frame
   * is `width` x `height` with one sample per pixel, so is the frame written.
   */
  lemma MainOutcomeIsMaxOfInputs(threads: nat, trace: seq<Action>)
    requires threads > 0
    requires Run(MainCombine(), Start(threads), trace).Some?
    requires AllExited(Run(MainCombine(), Start(threads), trace).value.workers)
    ensures var s := Run(MainCombine(), Start(threads), trace).value;
            var inputs := PushedImages(trace);
            && (FinalImage(s) == EmptyQueuePanic <==> |inputs| == 0)
            && (|inputs| > 0 ==> FinalImage(s).image.rawImageData == JoinAll(inputs)
                                 && s.blendProgress == |inputs| - 1)
            && (|inputs| == 1 ==> FinalImage(s) == Written(inputs[0]))
            && (|inputs| > 0 ==> HeaderOf(FinalImage(s).image) in Headers(inputs))
            && (forall width: nat, height: nat ::
                  (|inputs| > 0 && AllShaped(inputs, width, height)) ==> Shaped(FinalImage(s).image, width, height))
  {
    var s := Run(MainCombine(), Start(threads), trace).value;
    MainCombineLightens();
    assert |s.workers| >= threads by {
      RunKeepsWorkerCount(MainCombine(), Start(threads), trace);
    }
    ReductionOutcome(MainCombine(), threads, trace);
  }

  /**
   * The order in which `par_iter` finishes decoding does not matter: two runs
   * that decode the same frames, in any order, write a frame with the same
   * samples.
   */
  lemma DecodeOrderIrrelevant(threads: nat, trace1: seq<Action>, trace2: seq<Action>)
    requires threads > 0
    requires Run(MainCombine(), Start(threads), trace1).Some?
    requires AllExited(Run(MainCombine(), Start(threads), trace1).value.workers)
    requires Run(MainCombine(), Start(threads), trace2).Some?
    requires AllExited(Run(MainCombine(), Start(threads), trace2).value.workers)
    requires multiset(PushedImages(trace1)) == multiset(PushedImages(trace2))
    ensures var out1 := FinalImage(Run(MainCombine(), Start(threads), trace1).value);
            var out2 := FinalImage(Run(MainCombine(), Start(threads), trace2).value);
            && out1.Written? == out2.Written?
            && (out1.Written? ==> out1.image.rawImageData == out2.image.rawImageData)
  {
    var xs, ys := PushedImages(trace1), PushedImages(trace2);
    MainOutcomeIsMaxOfInputs(threads, trace1);
    MainOutcomeIsMaxOfInputs(threads, trace2);
    assert |ys| == |multiset(ys)| == |xs|;
    if |xs| > 0 {
      JoinAllPermutation(xs, ys);
    }
  }

  /** Only `Spawn` adds threads and `main` never spawns after start-up. */
  lemma {:induction false} RunKeepsWorkerCount(combine: Combine, s: State, trace: seq<Action>)
    requires Run(combine, s, trace).Some?
    ensures |Run(combine, s, trace).value.workers| >= |s.workers|
    decreases |trace|
  {
    if |trace| > 0 {
      RunKeepsWorkerCount(combine, Step(combine, s, trace[0]).value, trace[1..]);
    }
  }

  /** One `process_image` call: its frame is pushed at the end. */
  method PushOne(start: State, trace: seq<Action>, t: State, img: Image) returns (trace': seq<Action>, t': State)
    requires Run(MainCombine(), start, trace) == Some(t) && !t.done
    ensures Run(MainCombine(), start, trace') == Some(t') && !t'.done
    ensures t'.pushed == t.pushed + [img] && t'.workers == t.workers
  {
    RunSnoc(MainCombine(), start, trace, Push(img));
    trace' := trace + [Push(img)];
    t' := Step(MainCombine(), t, Push(img)).value;
  }

  /** The decode phase: every frame is pushed, in order, while `done` is unset. */
  method PushFrames(threads: nat, frames: seq<Image>) returns (trace: seq<Action>, t: State)
    ensures Run(MainCombine(), Start(threads), trace) == Some(t) && Inv(MainCombine(), t)
    ensures !t.done && t.pushed == frames && |t.workers| == threads
  {
    var start := Start(threads);
    t := start;
    trace := [];
    var i := 0;
    while i < |frames|
      invariant i <= |frames|
      invariant Run(MainCombine(), start, trace) == Some(t)
      invariant !t.done && t.pushed == frames[..i] && |t.workers| == threads
    {
      trace, t := PushOne(start, trace, t, frames[i]);
      assert frames[..i + 1] == frames[..i] + [frames[i]];
      i := i + 1;
    }
    assert frames[..|frames|] == frames;
    StartSatisfiesInvariants(MainCombine(), threads);
    RunPreservesInvariants(MainCombine(), start, trace);
  }

  /** The schedule of `main`: push every frame, raise `done`, let every worker drain and return. */
  method DriveMain(threads: nat, frames: seq<Image>) returns (trace: seq<Action>, joined: State)
    ensures Run(MainCombine(), Start(threads), trace) == Some(joined)
    ensures PushedImages(trace) == frames && AllExited(joined.workers) && |joined.workers| == threads
  {
    var start := Start(threads);
    var t;
    trace, t := PushFrames(threads, frames);
    trace, t := Extend(MainCombine(), start, trace, t, SetDone);
    var drain;
    drain, joined := CompleteAfterFinish(MainCombine(), t);
    RunAppend(MainCombine(), start, trace, drain);
    trace := trace + drain;
    RunRecordsPushes(MainCombine(), start, trace);
  }

  /**
   * `main` with `threads` workers over the decoded `frames`: every frame is
   * pushed, `done` is raised, and the workers drain the queue; the outcome is
   * the panic for no frames and otherwise the pointwise maximum of the frames,
   * with the resolution and EXIF handle of one of them.
   */
  method RunMain(threads: nat, frames: seq<Image>) returns (trace: seq<Action>, outcome: MainOutcome)
    requires threads > 0
    ensures Run(MainCombine(), Start(threads), trace).Some?
    ensures PushedImages(trace) == frames
    ensures outcome == EmptyQueuePanic <==> |frames| == 0
    ensures |frames| > 0 ==> outcome.Written? && outcome.image.rawImageData == JoinAll(frames)
    ensures |frames| == 1 ==> outcome == Written(frames[0])
    ensures |frames| > 0 ==> HeaderOf(outcome.image) in Headers(frames)
    ensures forall width: nat, height: nat ::
              (|frames| > 0 && AllShaped(frames, width, height)) ==> Shaped(outcome.image, width, height)
  {
    var joined;
    trace, joined := DriveMain(threads, frames);
    MainOutcomeIsMaxOfInputs(threads, trace);
    outcome := FinalImage(joined);
  }

  /** The three-frame lighten example: `[10, 200]`, `[50, 100]` and `[30, 255]` stack to `[50, 255]`. */
  lemma ThreeFrameExample(exif: ExifHandle)
    ensures JoinAll([Image([10, 200], exif, 1, 2, 1.0),
                     Image([50, 100], exif, 1, 2, 1.0),
                     Image([30, 255], exif, 1, 2, 1.0)]) == [50, 255]
  {
    var a, b, c := Image([10, 200], exif, 1, 2, 1.0), Image([50, 100], exif, 1, 2, 1.0), Image([30, 255], exif, 1, 2, 1.0);
    var xs := [a, b, c];
    assert xs[..2] == [a, b] && [a, b][..1] == [a];
    assert JoinAll([a, b]) == ZipMax(a.rawImageData, b.rawImageData) == [50, 200];
    assert JoinAll(xs) == ZipMax([50, 200], c.rawImageData) == [50, 255];
  }
}
