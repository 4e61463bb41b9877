/**
 * The lighten join of a whole collection of frames: what a pairwise lighten
 * reduction over that collection must produce, whatever the pairing order.
 */
module Lighten {
  import opened Image

  /** `c` lies above the samples of every frame in `m`. */
  ghost predicate IsUpperBound(m: multiset<Image>, c: seq<Sample>) {
    forall x | x in m :: Below(x.rawImageData, c)
  }

  /** Two collections of frames are bounded above by exactly the same sample sequences, so their lighten joins agree. */
  ghost predicate SameUpperBounds(m1: multiset<Image>, m2: multiset<Image>) {
    forall c :: IsUpperBound(m1, c) <==> IsUpperBound(m2, c)
  }

  /** Reference definition: merge the frames strictly left to right. */
  function JoinAll(xs: seq<Image>): (r: seq<Sample>)
    requires |xs| > 0
    ensures forall k :: 0 <= k < |xs| ==> Below(xs[k].rawImageData, r)
  {
    if |xs| == 1 then xs[0].rawImageData
    else
      var front := JoinAll(xs[..|xs| - 1]);
      var r := ZipMax(front, xs[|xs| - 1].rawImageData);
      assert forall k :: 0 <= k < |xs| - 1 ==> Below(xs[k].rawImageData, r) by {
        forall k | 0 <= k < |xs| - 1
          ensures Below(xs[k].rawImageData, r)
        {
          assert xs[k] == xs[..|xs| - 1][k];
          ZipMaxIsJoin(front, xs[|xs| - 1].rawImageData, r);
          BelowTransitive(xs[k].rawImageData, front, r);
        }
      }
      r
  }

  /** The left-to-right join lies below every upper bound of the frames: it is their least upper bound. */
  lemma {:induction false} JoinAllIsLeast(xs: seq<Image>, c: seq<Sample>)
    requires |xs| > 0
    requires IsUpperBound(multiset(xs), c)
    ensures Below(JoinAll(xs), c)
  {
    if |xs| == 1 {
      assert xs[0] in multiset(xs);
    } else {
      var front := xs[..|xs| - 1];
      assert xs == front + [xs[|xs| - 1]];
      assert multiset(xs) == multiset(front) + multiset{xs[|xs| - 1]};
      JoinAllIsLeast(front, c);
      assert xs[|xs| - 1] in multiset(xs);
      ZipMaxIsJoin(JoinAll(front), xs[|xs| - 1].rawImageData, c);
    }
  }

  /**
   * The join in plain terms: as long as the shortest frame, and at each position
   * the brightest sample any frame has there.
   */
  lemma {:induction false} JoinAllPointwise(xs: seq<Image>)
    requires |xs| > 0
    ensures exists k :: 0 <= k < |xs| && |JoinAll(xs)| == |xs[k].rawImageData|
    ensures forall i :: 0 <= i < |JoinAll(xs)| ==>
              exists k :: 0 <= k < |xs| && JoinAll(xs)[i] == xs[k].rawImageData[i]
  {
    if |xs| == 1 {
      assert |JoinAll(xs)| == |xs[0].rawImageData|;
    } else {
      var front := xs[..|xs| - 1];
      var last := xs[|xs| - 1];
      JoinAllPointwise(front);
      var r := JoinAll(xs);
      assert r == ZipMax(JoinAll(front), last.rawImageData);
      if |JoinAll(front)| <= |last.rawImageData| {
        var k :| 0 <= k < |front| && |JoinAll(front)| == |front[k].rawImageData|;
        assert xs[k] == front[k] && |r| == |xs[k].rawImageData|;
      } else {
        assert |r| == |xs[|xs| - 1].rawImageData|;
      }
      forall i | 0 <= i < |r|
        ensures exists k :: 0 <= k < |xs| && r[i] == xs[k].rawImageData[i]
      {
        if r[i] == last.rawImageData[i] {
          assert r[i] == xs[|xs| - 1].rawImageData[i];
        } else {
          var k :| 0 <= k < |front| && JoinAll(front)[i] == front[k].rawImageData[i];
          assert xs[k] == front[k];
        }
      }
    }
  }

  /**
   * A frame with the joined samples and the header of one of the frames has the
   * common shape of the frames, when they all have one.
   */
  lemma JoinAllKeepsShape(xs: seq<Image>, r: Image, width: nat, height: nat)
    requires |xs| > 0 && AllShaped(xs, width, height)
    requires HeaderOf(r) in Headers(xs) && r.rawImageData == JoinAll(xs)
    ensures Shaped(r, width, height)
  {
    JoinAllPointwise(xs);
    var k :| 0 <= k < |xs| && Headers(xs)[k] == HeaderOf(r);
    assert Shaped(xs[k], width, height);
    var j :| 0 <= j < |xs| && |JoinAll(xs)| == |xs[j].rawImageData|;
    assert Shaped(xs[j], width, height);
  }

  lemma UpperBoundOfSingleton(x: Image, c: seq<Sample>)
    ensures IsUpperBound(multiset{x}, c) <==> Below(x.rawImageData, c)
  {
  }

  lemma UpperBoundOfSeq(xs: seq<Image>, c: seq<Sample>)
    ensures IsUpperBound(multiset(xs), c) <==> forall k :: 0 <= k < |xs| ==> Below(xs[k].rawImageData, c)
  {
    if forall k :: 0 <= k < |xs| ==> Below(xs[k].rawImageData, c) {
      forall x | x in multiset(xs)
        ensures Below(x.rawImageData, c)
      {
        assert x in xs;
      }
    }
  }

  /** Adding one frame to a collection adds exactly that frame's constraint on upper bounds. */
  lemma UpperBoundOfAdd(m: multiset<Image>, x: Image, c: seq<Sample>)
    ensures IsUpperBound(m + multiset{x}, c) <==> IsUpperBound(m, c) && Below(x.rawImageData, c)
  {
    if IsUpperBound(m, c) && Below(x.rawImageData, c) {
      forall y | y in m + multiset{x}
        ensures Below(y.rawImageData, c)
      {
        if y != x {
          assert y in m;
        }
      }
    }
  }

  /**
   * The one frame left over from a reduction has the samples of the left-to-right
   * join of all inputs exactly when it is bounded by the same sequences as they are.
   */
  lemma {:induction false} SameUpperBoundsAsJoin(x: Image, xs: seq<Image>)
    requires |xs| > 0
    requires SameUpperBounds(multiset{x}, multiset(xs))
    ensures x.rawImageData == JoinAll(xs)
  {
    var j := JoinAll(xs);
    UpperBoundOfSeq(xs, j);
    UpperBoundOfSingleton(x, j);
    assert Below(x.rawImageData, j);
    BelowReflexive(x.rawImageData);
    UpperBoundOfSingleton(x, x.rawImageData);
    assert IsUpperBound(multiset(xs), x.rawImageData);
    JoinAllIsLeast(xs, x.rawImageData);
    BelowAntisymmetric(x.rawImageData, j);
  }

  /** The join depends only on which frames there are, not on the order they arrive in. */
  lemma JoinAllPermutation(xs: seq<Image>, ys: seq<Image>)
    requires |xs| > 0 && |ys| > 0 && multiset(xs) == multiset(ys)
    ensures JoinAll(xs) == JoinAll(ys)
  {
    UpperBoundOfSeq(xs, JoinAll(ys));
    UpperBoundOfSeq(ys, JoinAll(xs));
    JoinAllIsLeast(xs, JoinAll(ys));
    JoinAllIsLeast(ys, JoinAll(xs));
    BelowAntisymmetric(JoinAll(xs), JoinAll(ys));
  }
}
