/**
 * One decoded raw frame (`Image` in src/image.rs) and the lighten merge that
 * combines two frames pixel by pixel.
 */
module Image {

  /** Largest value of a Rust `u16`. */
  const U16_MAX: int := 0xFFFF

  /** One raw sensor sample, a `u16`. */
  type Sample = x: int | 0 <= x <= U16_MAX

  /** The shared EXIF record (`Arc<Mutex<exif::Exif>>`); only the identity of the handle matters here. */
  datatype ExifHandle = ExifHandle(id: nat)

  /**
   * A decoded frame. `intensity` is the weight chosen for the frame; it is stored
   * but never applied to the samples.
   */
  datatype Image = Image(
    rawImageData: seq<Sample>,
    exif: ExifHandle,
    height: nat,
    width: nat,
    intensity: real)

  // ---------------------------------------------------------------------------
  // Loading a decoded raw file
  // ---------------------------------------------------------------------------

  /** The sample storage the raw decoder reports: integer samples, or floating-point ones. */
  datatype RawImageData = Integer(samples: seq<Sample>) | Float(values: seq<real>)

  /** What the raw decoder hands back for one file. */
  datatype RawImage = RawImage(width: nat, height: nat, data: RawImageData)

  /** The two ways loading a decoded frame panics. */
  datatype LoadPanic =
    | SizeMismatch    // the sample count disagrees with the resolution (`assert_eq!`)
    | NonIntegerData  // floating-point raw data (`unimplemented!`)

  datatype LoadOutcome = Loaded(image: Image) | Panicked(reason: LoadPanic)

  /**
   * `Image::load_from_raw` after the decoder and the EXIF reader have returned:
   * a frame is built only from integer data whose length is `width * height`.
   */
  function LoadFromRaw(raw: RawImage, exif: ExifHandle, intensity: real): (r: LoadOutcome)
    ensures r.Loaded? <==> raw.data.Integer? && |raw.data.samples| == raw.width * raw.height
    ensures r.Loaded? ==> |r.image.rawImageData| == r.image.width * r.image.height
    ensures r.Loaded? ==>
              && r.image.rawImageData == raw.data.samples
              && r.image.width == raw.width && r.image.height == raw.height
              && r.image.exif == exif && r.image.intensity == intensity
    ensures raw.data.Float? ==> r == Panicked(NonIntegerData)
    ensures raw.data.Integer? && !r.Loaded? ==> r == Panicked(SizeMismatch)
  {
    match raw.data
    case Integer(data) =>
      if |data| == raw.width * raw.height then
        Loaded(Image(data, exif, raw.height, raw.width, intensity))
      else
        Panicked(SizeMismatch)
    case Float(_) => Panicked(NonIntegerData)
  }

  // ---------------------------------------------------------------------------
  // The lighten merge
  // ---------------------------------------------------------------------------

  /** `std::cmp::max` on two samples. */
  function MaxSample(x: Sample, y: Sample): Sample {
    if x >= y then x else y
  }

  /** The brighter sample at each position, pairing the operands up until the shorter one ends. */
  function ZipMax(a: seq<Sample>, b: seq<Sample>): (r: seq<Sample>)
    ensures |r| == if |a| <= |b| then |a| else |b|
    ensures forall i :: 0 <= i < |r| ==> r[i] == MaxSample(a[i], b[i])
  {
    if |a| == 0 || |b| == 0 then []
    else [MaxSample(a[0], b[0])] + ZipMax(a[1..], b[1..])
  }

  /**
   * `Image::merge`: the brighter of the two samples at every position both frames
   * have; everything else (resolution, EXIF handle) comes from `self`, and the
   * weight is reset to 1.
   */
  function Merge(self: Image, other: Image): (r: Image)
    ensures |r.rawImageData| == if |self.rawImageData| <= |other.rawImageData|
                                then |self.rawImageData| else |other.rawImageData|
    ensures forall i :: 0 <= i < |r.rawImageData| ==>
              && r.rawImageData[i] >= self.rawImageData[i]
              && r.rawImageData[i] >= other.rawImageData[i]
              && (r.rawImageData[i] == self.rawImageData[i] || r.rawImageData[i] == other.rawImageData[i])
    ensures r.width == self.width && r.height == self.height
    ensures r.exif == self.exif && r.intensity == 1.0
  {
    Image(ZipMax(self.rawImageData, other.rawImageData), self.exif, self.height, self.width, 1.0)
  }

  // ---------------------------------------------------------------------------
  // What a frame carries besides its samples
  // ---------------------------------------------------------------------------

  /** The resolution and EXIF handle of a frame, which the DNG writer receives together with the samples. */
  datatype Header = Header(width: nat, height: nat, exif: ExifHandle)

  function HeaderOf(img: Image): Header {
    Header(img.width, img.height, img.exif)
  }

  /** The headers of a sequence of frames, position by position. */
  function Headers(xs: seq<Image>): (hs: seq<Header>)
    ensures |hs| == |xs| && forall k :: 0 <= k < |xs| ==> hs[k] == HeaderOf(xs[k])
  {
    seq(|xs|, k requires 0 <= k < |xs| => HeaderOf(xs[k]))
  }

  /** `img` has resolution `width` x `height` and exactly one sample per pixel. */
  predicate Shaped(img: Image, width: nat, height: nat) {
    img.width == width && img.height == height && |img.rawImageData| == width * height
  }

  predicate AllShaped(xs: seq<Image>, width: nat, height: nat) {
    forall k :: 0 <= k < |xs| ==> Shaped(xs[k], width, height)
  }

  /** On operands of one length the merge keeps that length. */
  lemma MergeKeepsCommonLength(a: Image, b: Image)
    requires |a.rawImageData| == |b.rawImageData|
    ensures |Merge(a, b).rawImageData| == |a.rawImageData| == |b.rawImageData|
  {
  }

  lemma MergeCommutes(a: Image, b: Image)
    ensures Merge(a, b).rawImageData == Merge(b, a).rawImageData
  {
  }

  lemma MergeAssociates(a: Image, b: Image, c: Image)
    ensures Merge(Merge(a, b), c).rawImageData == Merge(a, Merge(b, c)).rawImageData
  {
  }

  lemma MergeIdempotent(a: Image)
    ensures Merge(a, a).rawImageData == a.rawImageData
  {
  }

  // ---------------------------------------------------------------------------
  // The lighten order
  // ---------------------------------------------------------------------------

  /**
   * `a` lies below `b` in the lighten order: `b` is no longer than `a`, and at each
   * of `b`'s positions `b` is at least as bright as `a`. Merging only ever moves up.
   */
  predicate Below(a: seq<Sample>, b: seq<Sample>) {
    |b| <= |a| && forall i :: 0 <= i < |b| ==> a[i] <= b[i]
  }

  lemma BelowReflexive(a: seq<Sample>)
    ensures Below(a, a)
  {
  }

  lemma BelowTransitive(a: seq<Sample>, b: seq<Sample>, c: seq<Sample>)
    requires Below(a, b) && Below(b, c)
    ensures Below(a, c)
  {
  }

  lemma BelowAntisymmetric(a: seq<Sample>, b: seq<Sample>)
    requires Below(a, b) && Below(b, a)
    ensures a == b
  {
  }

  /** The lighten merge of two sample sequences is their least upper bound in the lighten order. */
  lemma ZipMaxIsJoin(a: seq<Sample>, b: seq<Sample>, c: seq<Sample>)
    ensures Below(a, ZipMax(a, b)) && Below(b, ZipMax(a, b))
    ensures Below(a, c) && Below(b, c) ==> Below(ZipMax(a, b), c)
  {
  }
}
