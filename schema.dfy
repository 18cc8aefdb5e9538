/**
 * The record layout of the project format, shared by the writer and the
 * reader. Each record is described three ways: the field list the writer
 * emits for a JSON object (`*Fields`), the kind list the reader's object
 * literal reads (`*Kinds`), and the builder that turns the fields read into
 * the JSON object (`*Of`). The payload is the content-length word, the
 * version word, the metadata fields, the tag array and the thirteen tracks.
 */
module Schema {
  import opened Wrappers
  import opened Bytes
  import opened Primitives
  import opened Fields
  import opened Project
  import Enums

  // ---- tags: written with a signed track, read back with an unsigned one ----

  /** writeHSTag: name, rating, start, end, then the track as Int32. */
  function TagFields(g: Tag): (r: seq<Field>)
    ensures |r| == |TagKinds| && Shaped(r[..4], TagKinds[..4])
    ensures r[4] == Int32Field(g.track) && TagKinds[4] == UInt32Kind
  {
    [TextField(g.name)] + [FloatField(g.rating)] + [TimespanField(g.start)] + [TimespanField(g.end)] + [Int32Field(g.track)]
  }

  lemma TagFieldsWritable(g: Tag)
    requires TagWritable(g)
    ensures AllWritable(TagFields(g))
  {
    var r := TagFields(g);
    forall i | 0 <= i < |r| ensures Writable(r[i]) {
      if i == 0 {}
    }
  }

  /** The tag lambda of parse: the same fields, the track read as UInt32. */
  const TagKinds: seq<Kind> := [TextKind, FloatKind, TimespanKind, TimespanKind, UInt32Kind]

  function TagOf(fs: seq<Field>): (r: Tag)
    requires Shaped(fs, TagKinds)
    ensures 0 <= r.track < TWO32
  {
    Tag(fs[0].text, fs[1].float, fs[2].span, fs[3].span, fs[4].word)
  }

  // ---- FormatKeyFrame ----

  /** writeFormatKeyFrame: the fields in the order the writer emits them. */
  function FormatFields(k: FormatKeyFrame): seq<Field> {
    [TimespanField(k.time)] + [EnumField(Enums.ProjectionMode, k.projectionMode)] +
    [EnumField(Enums.StereoMode, k.stereoMode)] + [BoolField(k.eyeSwapEnabled)] +
    [BoolField(k.forceMonoEnabled)] + [BoolField(k.flipFrontBack)] + [BoolField(k.flipLeftRight)] +
    [BoolField(k.flipUpDown)] + [EnumField(Enums.AspectRatioType, k.aspectRatioType)] +
    [FloatField(k.aspectRatio)] + [Vector2DField(k.zoom)] + [Vector2DField(k.pan)] +
    [EnumField(Enums.OrientationType, k.orientationType)]
  }

  /** Each field has the kind parse's format lambda reads at its place, and the lambda's object literal rebuilds the keyframe. */
  lemma FormatFieldsInverse(k: FormatKeyFrame)
    ensures Shaped(FormatFields(k), FormatKinds)
    ensures FormatOf(FormatFields(k)) == k
  {
    FormatFieldsShaped(k);
  }

  lemma FormatFieldsShaped(k: FormatKeyFrame)
    ensures Shaped(FormatFields(k), FormatKinds)
  {
    var r := FormatFields(k);
    forall i | 0 <= i < |r| ensures OfKind(r[i], FormatKinds[i]) {
      if i == 0 {} else if i == 1 {} else if i == 2 {} else if i == 3 {} else if i == 4 {} else if i == 5 {}
      else if i == 6 {} else if i == 7 {} else if i == 8 {} else if i == 9 {} else if i == 10 {} else if i == 11 {} else {}
    }
  }

  lemma FormatFieldsWritable(k: FormatKeyFrame)
    ensures AllWritable(FormatFields(k))
  {
    var r := [TimespanField(k.time)];
    WritableSnoc(r, EnumField(Enums.ProjectionMode, k.projectionMode));
    r := r + [EnumField(Enums.ProjectionMode, k.projectionMode)];
    WritableSnoc(r, EnumField(Enums.StereoMode, k.stereoMode));
    r := r + [EnumField(Enums.StereoMode, k.stereoMode)];
    WritableSnoc(r, BoolField(k.eyeSwapEnabled));
    r := r + [BoolField(k.eyeSwapEnabled)];
    WritableSnoc(r, BoolField(k.forceMonoEnabled));
    r := r + [BoolField(k.forceMonoEnabled)];
    WritableSnoc(r, BoolField(k.flipFrontBack));
    r := r + [BoolField(k.flipFrontBack)];
    WritableSnoc(r, BoolField(k.flipLeftRight));
    r := r + [BoolField(k.flipLeftRight)];
    WritableSnoc(r, BoolField(k.flipUpDown));
    r := r + [BoolField(k.flipUpDown)];
    WritableSnoc(r, EnumField(Enums.AspectRatioType, k.aspectRatioType));
    r := r + [EnumField(Enums.AspectRatioType, k.aspectRatioType)];
    WritableSnoc(r, FloatField(k.aspectRatio));
    r := r + [FloatField(k.aspectRatio)];
    WritableSnoc(r, Vector2DField(k.zoom));
    r := r + [Vector2DField(k.zoom)];
    WritableSnoc(r, Vector2DField(k.pan));
    r := r + [Vector2DField(k.pan)];
    WritableSnoc(r, EnumField(Enums.OrientationType, k.orientationType));
    r := r + [EnumField(Enums.OrientationType, k.orientationType)];
  }

  const FormatKinds: seq<Kind> := [
    TimespanKind, EnumKind(Enums.ProjectionMode), EnumKind(Enums.StereoMode), BoolKind, BoolKind, BoolKind,
    BoolKind, BoolKind, EnumKind(Enums.AspectRatioType), FloatKind, Vector2DKind, Vector2DKind,
    EnumKind(Enums.OrientationType)
  ]

  /** The object literal of parse's format lambda; it holds the fields read, by name. */
  function FormatOf(fs: seq<Field>): FormatKeyFrame
    requires Shaped(fs, FormatKinds)
  {
    FormatKeyFrame(
      fs[0].span, fs[1].name, fs[2].name, fs[3].flag, fs[4].flag, fs[5].flag, fs[6].flag, fs[7].flag,
      fs[8].name, fs[9].float, fs[10].vector2D, fs[11].vector2D, fs[12].name)
  }

  // ---- LensKeyFrame ----

  /** writeLensKeyFrame: the fields in the order the writer emits them. */
  function LensFields(k: LensKeyFrame): seq<Field> {
    [TimespanField(k.time)] + [TextField(k.trueLensName)] + [TextField(k.exportLensName)] +
    [LinearColorField(k.trueLensCalibration)] + [LinearColorField(k.exportLensCalibration)] +
    [FloatField(k.trueFOV)] + [FloatField(k.exportFOV)]
  }

  /** Each field has the kind parse's lens lambda reads at its place, and the lambda's object literal rebuilds the keyframe. */
  lemma LensFieldsInverse(k: LensKeyFrame)
    ensures Shaped(LensFields(k), LensKinds)
    ensures LensOf(LensFields(k)) == k
  {
    LensFieldsShaped(k);
  }

  lemma LensFieldsShaped(k: LensKeyFrame)
    ensures Shaped(LensFields(k), LensKinds)
  {
    var r := LensFields(k);
    forall i | 0 <= i < |r| ensures OfKind(r[i], LensKinds[i]) {
      if i == 0 {} else if i == 1 {} else if i == 2 {} else if i == 3 {} else if i == 4 {} else if i == 5 {} else {}
    }
  }

  lemma LensFieldsWritable(k: LensKeyFrame)
    requires LensWritable(k)
    ensures AllWritable(LensFields(k))
  {
    var r := [TimespanField(k.time)];
    WritableSnoc(r, TextField(k.trueLensName));
    r := r + [TextField(k.trueLensName)];
    WritableSnoc(r, TextField(k.exportLensName));
    r := r + [TextField(k.exportLensName)];
    WritableSnoc(r, LinearColorField(k.trueLensCalibration));
    r := r + [LinearColorField(k.trueLensCalibration)];
    WritableSnoc(r, LinearColorField(k.exportLensCalibration));
    r := r + [LinearColorField(k.exportLensCalibration)];
    WritableSnoc(r, FloatField(k.trueFOV));
    r := r + [FloatField(k.trueFOV)];
    WritableSnoc(r, FloatField(k.exportFOV));
    r := r + [FloatField(k.exportFOV)];
  }

  const LensKinds: seq<Kind> := [
    TimespanKind, TextKind, TextKind, LinearColorKind, LinearColorKind, FloatKind, FloatKind
  ]

  /** The object literal of parse's lens lambda; it holds the fields read, by name. */
  function LensOf(fs: seq<Field>): LensKeyFrame
    requires Shaped(fs, LensKinds)
  {
    LensKeyFrame(
      fs[0].span, fs[1].text, fs[2].text, fs[3].color, fs[4].color, fs[5].float, fs[6].float)
  }

  // ---- StitchKeyFrame ----

  /** writeStitchKeyFrame: the fields in the order the writer emits them. */
  function StitchFields(k: StitchKeyFrame): seq<Field> {
    [TimespanField(k.time)] + [Vector4Field(k.shift)] + [Vector4Field(k.scale)] + [Vector4Field(k.shear)] +
    [Vector4Field(k.flare)] + [Vector4Field(k.slant)]
  }

  /** Each field has the kind parse's stitch lambda reads at its place, and the lambda's object literal rebuilds the keyframe. */
  lemma StitchFieldsInverse(k: StitchKeyFrame)
    ensures Shaped(StitchFields(k), StitchKinds)
    ensures StitchOf(StitchFields(k)) == k
  {
    StitchFieldsShaped(k);
  }

  lemma StitchFieldsShaped(k: StitchKeyFrame)
    ensures Shaped(StitchFields(k), StitchKinds)
  {
    var r := StitchFields(k);
    forall i | 0 <= i < |r| ensures OfKind(r[i], StitchKinds[i]) {
      if i == 0 {} else if i == 1 {} else if i == 2 {} else if i == 3 {} else if i == 4 {} else {}
    }
  }

  lemma StitchFieldsWritable(k: StitchKeyFrame)
    ensures AllWritable(StitchFields(k))
  {
    var r := [TimespanField(k.time)];
    WritableSnoc(r, Vector4Field(k.shift));
    r := r + [Vector4Field(k.shift)];
    WritableSnoc(r, Vector4Field(k.scale));
    r := r + [Vector4Field(k.scale)];
    WritableSnoc(r, Vector4Field(k.shear));
    r := r + [Vector4Field(k.shear)];
    WritableSnoc(r, Vector4Field(k.flare));
    r := r + [Vector4Field(k.flare)];
    WritableSnoc(r, Vector4Field(k.slant));
    r := r + [Vector4Field(k.slant)];
  }

  const StitchKinds: seq<Kind> := [
    TimespanKind, Vector4Kind, Vector4Kind, Vector4Kind, Vector4Kind, Vector4Kind
  ]

  /** The object literal of parse's stitch lambda; it holds the fields read, by name. */
  function StitchOf(fs: seq<Field>): StitchKeyFrame
    requires Shaped(fs, StitchKinds)
  {
    StitchKeyFrame(
      fs[0].span, fs[1].vector4, fs[2].vector4, fs[3].vector4, fs[4].vector4, fs[5].vector4)
  }

  // ---- AlignmentKeyFrame ----

  /** writeAlignmentKeyFrame: the fields in the order the writer emits them. */
  function AlignmentFields(k: AlignmentKeyFrame): seq<Field> {
    [TimespanField(k.time)] + [VectorField(k.position)] + [RotatorField(k.rotation)]
  }

  /** Each field has the kind parse's alignment lambda reads at its place, and the lambda's object literal rebuilds the keyframe. */
  lemma AlignmentFieldsInverse(k: AlignmentKeyFrame)
    ensures Shaped(AlignmentFields(k), AlignmentKinds)
    ensures AlignmentOf(AlignmentFields(k)) == k
  {
    AlignmentFieldsShaped(k);
  }

  lemma AlignmentFieldsShaped(k: AlignmentKeyFrame)
    ensures Shaped(AlignmentFields(k), AlignmentKinds)
  {
    var r := AlignmentFields(k);
    forall i | 0 <= i < |r| ensures OfKind(r[i], AlignmentKinds[i]) {
      if i == 0 {} else if i == 1 {} else {}
    }
  }

  lemma AlignmentFieldsWritable(k: AlignmentKeyFrame)
    ensures AllWritable(AlignmentFields(k))
  {
    var r := [TimespanField(k.time)];
    WritableSnoc(r, VectorField(k.position));
    r := r + [VectorField(k.position)];
    WritableSnoc(r, RotatorField(k.rotation));
    r := r + [RotatorField(k.rotation)];
  }

  const AlignmentKinds: seq<Kind> := [
    TimespanKind, VectorKind, RotatorKind
  ]

  /** The object literal of parse's alignment lambda; it holds the fields read, by name. */
  function AlignmentOf(fs: seq<Field>): AlignmentKeyFrame
    requires Shaped(fs, AlignmentKinds)
  {
    AlignmentKeyFrame(
      fs[0].span, fs[1].vector, fs[2].rotator)
  }

  // ---- OrientationKeyFrame ----

  /** writeOrientationKeyFrame: the fields in the order the writer emits them. */
  function OrientationFields(k: OrientationKeyFrame): seq<Field> {
    [TimespanField(k.time)] + [RotatorField(k.orientation)]
  }

  /** Each field has the kind parse's orientation lambda reads at its place, and the lambda's object literal rebuilds the keyframe. */
  lemma OrientationFieldsInverse(k: OrientationKeyFrame)
    ensures Shaped(OrientationFields(k), OrientationKinds)
    ensures OrientationOf(OrientationFields(k)) == k
  {
    OrientationFieldsShaped(k);
  }

  lemma OrientationFieldsShaped(k: OrientationKeyFrame)
    ensures Shaped(OrientationFields(k), OrientationKinds)
  {
    var r := OrientationFields(k);
    forall i | 0 <= i < |r| ensures OfKind(r[i], OrientationKinds[i]) {
      if i == 0 {} else {}
    }
  }

  lemma OrientationFieldsWritable(k: OrientationKeyFrame)
    ensures AllWritable(OrientationFields(k))
  {
    var r := [TimespanField(k.time)];
    WritableSnoc(r, RotatorField(k.orientation));
    r := r + [RotatorField(k.orientation)];
  }

  const OrientationKinds: seq<Kind> := [
    TimespanKind, RotatorKind
  ]

  /** The object literal of parse's orientation lambda; it holds the fields read, by name. */
  function OrientationOf(fs: seq<Field>): OrientationKeyFrame
    requires Shaped(fs, OrientationKinds)
  {
    OrientationKeyFrame(
      fs[0].span, fs[1].rotator)
  }

  // ---- OriginKeyFrame ----

  /** writeOriginKeyFrame: the fields in the order the writer emits them. */
  function OriginFields(k: OriginKeyFrame): seq<Field> {
    [TimespanField(k.time)] + [VectorField(k.origin)]
  }

  /** Each field has the kind parse's origin lambda reads at its place, and the lambda's object literal rebuilds the keyframe. */
  lemma OriginFieldsInverse(k: OriginKeyFrame)
    ensures Shaped(OriginFields(k), OriginKinds)
    ensures OriginOf(OriginFields(k)) == k
  {
    OriginFieldsShaped(k);
  }

  lemma OriginFieldsShaped(k: OriginKeyFrame)
    ensures Shaped(OriginFields(k), OriginKinds)
  {
    var r := OriginFields(k);
    forall i | 0 <= i < |r| ensures OfKind(r[i], OriginKinds[i]) {
      if i == 0 {} else {}
    }
  }

  lemma OriginFieldsWritable(k: OriginKeyFrame)
    ensures AllWritable(OriginFields(k))
  {
    var r := [TimespanField(k.time)];
    WritableSnoc(r, VectorField(k.origin));
    r := r + [VectorField(k.origin)];
  }

  const OriginKinds: seq<Kind> := [
    TimespanKind, VectorKind
  ]

  /** The object literal of parse's origin lambda; it holds the fields read, by name. */
  function OriginOf(fs: seq<Field>): OriginKeyFrame
    requires Shaped(fs, OriginKinds)
  {
    OriginKeyFrame(
      fs[0].span, fs[1].vector)
  }

  // ---- MotionKeyFrame ----

  /** writeMotionKeyFrame: the fields in the order the writer emits them. */
  function MotionFields(k: MotionKeyFrame): seq<Field> {
    [TimespanField(k.time)] + [FloatField(k.motionDistance)]
  }

  /** Each field has the kind parse's motion lambda reads at its place, and the lambda's object literal rebuilds the keyframe. */
  lemma MotionFieldsInverse(k: MotionKeyFrame)
    ensures Shaped(MotionFields(k), MotionKinds)
    ensures MotionOf(MotionFields(k)) == k
  {
    MotionFieldsShaped(k);
  }

  lemma MotionFieldsShaped(k: MotionKeyFrame)
    ensures Shaped(MotionFields(k), MotionKinds)
  {
    var r := MotionFields(k);
    forall i | 0 <= i < |r| ensures OfKind(r[i], MotionKinds[i]) {
      if i == 0 {} else {}
    }
  }

  lemma MotionFieldsWritable(k: MotionKeyFrame)
    ensures AllWritable(MotionFields(k))
  {
    var r := [TimespanField(k.time)];
    WritableSnoc(r, FloatField(k.motionDistance));
    r := r + [FloatField(k.motionDistance)];
  }

  const MotionKinds: seq<Kind> := [
    TimespanKind, FloatKind
  ]

  /** The object literal of parse's motion lambda; it holds the fields read, by name. */
  function MotionOf(fs: seq<Field>): MotionKeyFrame
    requires Shaped(fs, MotionKinds)
  {
    MotionKeyFrame(
      fs[0].span, fs[1].float)
  }

  // ---- AutoFocusKeyFrame ----

  /** writeAutoFocusKeyFrame: the fields in the order the writer emits them. */
  function AutoFocusFields(k: AutoFocusKeyFrame): seq<Field> {
    [TimespanField(k.time)] + [RotatorField(k.rotation)] + [FloatField(k.focalDistanceOverride)] +
    [FloatField(k.minFocusDistance)] + [FloatField(k.maxFocusDistance)] +
    [FloatField(k.focusTransitionSpeed)]
  }

  /** Each field has the kind parse's autoFocus lambda reads at its place, and the lambda's object literal rebuilds the keyframe. */
  lemma AutoFocusFieldsInverse(k: AutoFocusKeyFrame)
    ensures Shaped(AutoFocusFields(k), AutoFocusKinds)
    ensures AutoFocusOf(AutoFocusFields(k)) == k
  {
    AutoFocusFieldsShaped(k);
  }

  lemma AutoFocusFieldsShaped(k: AutoFocusKeyFrame)
    ensures Shaped(AutoFocusFields(k), AutoFocusKinds)
  {
    var r := AutoFocusFields(k);
    forall i | 0 <= i < |r| ensures OfKind(r[i], AutoFocusKinds[i]) {
      if i == 0 {} else if i == 1 {} else if i == 2 {} else if i == 3 {} else if i == 4 {} else {}
    }
  }

  lemma AutoFocusFieldsWritable(k: AutoFocusKeyFrame)
    ensures AllWritable(AutoFocusFields(k))
  {
    var r := [TimespanField(k.time)];
    WritableSnoc(r, RotatorField(k.rotation));
    r := r + [RotatorField(k.rotation)];
    WritableSnoc(r, FloatField(k.focalDistanceOverride));
    r := r + [FloatField(k.focalDistanceOverride)];
    WritableSnoc(r, FloatField(k.minFocusDistance));
    r := r + [FloatField(k.minFocusDistance)];
    WritableSnoc(r, FloatField(k.maxFocusDistance));
    r := r + [FloatField(k.maxFocusDistance)];
    WritableSnoc(r, FloatField(k.focusTransitionSpeed));
    r := r + [FloatField(k.focusTransitionSpeed)];
  }

  const AutoFocusKinds: seq<Kind> := [
    TimespanKind, RotatorKind, FloatKind, FloatKind, FloatKind, FloatKind
  ]

  /** The object literal of parse's autoFocus lambda; it holds the fields read, by name. */
  function AutoFocusOf(fs: seq<Field>): AutoFocusKeyFrame
    requires Shaped(fs, AutoFocusKinds)
  {
    AutoFocusKeyFrame(
      fs[0].span, fs[1].rotator, fs[2].float, fs[3].float, fs[4].float, fs[5].float)
  }

  // ---- SyncKeyFrame ----

  /** writeSyncKeyFrame: the fields in the order the writer emits them. */
  function SyncFields(k: SyncKeyFrame): seq<Field> {
    [TimespanField(k.time)] + [TimespanField(k.startingTicksOffset)] + [TimespanField(k.ticksPerHoursOffset)]
  }

  /** Each field has the kind parse's sync lambda reads at its place, and the lambda's object literal rebuilds the keyframe. */
  lemma SyncFieldsInverse(k: SyncKeyFrame)
    ensures Shaped(SyncFields(k), SyncKinds)
    ensures SyncOf(SyncFields(k)) == k
  {
    SyncFieldsShaped(k);
  }

  lemma SyncFieldsShaped(k: SyncKeyFrame)
    ensures Shaped(SyncFields(k), SyncKinds)
  {
    var r := SyncFields(k);
    forall i | 0 <= i < |r| ensures OfKind(r[i], SyncKinds[i]) {
      if i == 0 {} else if i == 1 {} else {}
    }
  }

  lemma SyncFieldsWritable(k: SyncKeyFrame)
    ensures AllWritable(SyncFields(k))
  {
    var r := [TimespanField(k.time)];
    WritableSnoc(r, TimespanField(k.startingTicksOffset));
    r := r + [TimespanField(k.startingTicksOffset)];
    WritableSnoc(r, TimespanField(k.ticksPerHoursOffset));
    r := r + [TimespanField(k.ticksPerHoursOffset)];
  }

  const SyncKinds: seq<Kind> := [
    TimespanKind, TimespanKind, TimespanKind
  ]

  /** The object literal of parse's sync lambda; it holds the fields read, by name. */
  function SyncOf(fs: seq<Field>): SyncKeyFrame
    requires Shaped(fs, SyncKinds)
  {
    SyncKeyFrame(
      fs[0].span, fs[1].span, fs[2].span)
  }

  // ---- TransitionKeyFrame ----

  /** writeTransitionKeyFrame: the fields in the order the writer emits them. */
  function TransitionFields(k: TransitionKeyFrame): seq<Field> {
    [TimespanField(k.time)] + [EnumField(Enums.KeyFrameTransitionType, k.transitionType)] +
    [TimespanField(k.duration)]
  }

  /** Each field has the kind parse's transition lambda reads at its place, and the lambda's object literal rebuilds the keyframe. */
  lemma TransitionFieldsInverse(k: TransitionKeyFrame)
    ensures Shaped(TransitionFields(k), TransitionKinds)
    ensures TransitionOf(TransitionFields(k)) == k
  {
    TransitionFieldsShaped(k);
  }

  lemma TransitionFieldsShaped(k: TransitionKeyFrame)
    ensures Shaped(TransitionFields(k), TransitionKinds)
  {
    var r := TransitionFields(k);
    forall i | 0 <= i < |r| ensures OfKind(r[i], TransitionKinds[i]) {
      if i == 0 {} else if i == 1 {} else {}
    }
  }

  lemma TransitionFieldsWritable(k: TransitionKeyFrame)
    ensures AllWritable(TransitionFields(k))
  {
    var r := [TimespanField(k.time)];
    WritableSnoc(r, EnumField(Enums.KeyFrameTransitionType, k.transitionType));
    r := r + [EnumField(Enums.KeyFrameTransitionType, k.transitionType)];
    WritableSnoc(r, TimespanField(k.duration));
    r := r + [TimespanField(k.duration)];
  }

  const TransitionKinds: seq<Kind> := [
    TimespanKind, EnumKind(Enums.KeyFrameTransitionType), TimespanKind
  ]

  /** The object literal of parse's transition lambda; it holds the fields read, by name. */
  function TransitionOf(fs: seq<Field>): TransitionKeyFrame
    requires Shaped(fs, TransitionKinds)
  {
    TransitionKeyFrame(
      fs[0].span, fs[1].name, fs[2].span)
  }

  // ---- ImageKeyFrame ----

  /** writeImageKeyFrame: the fields in the order the writer emits them. */
  function ImageFields(k: ImageKeyFrame): seq<Field> {
    [TimespanField(k.time)] + [FloatField(k.sharpness)] + [FloatField(k.colorExposureBias)] +
    [FloatField(k.colorWhiteTemperature)] + [FloatField(k.colorWhiteTint)] +
    [Vector4Field(k.colorSaturation)] + [Vector4Field(k.colorContrast)] + [Vector4Field(k.colorGamma)] +
    [Vector4Field(k.colorGain)] + [Vector4Field(k.colorOffset)] + [FloatField(k.shadows)] +
    [FloatField(k.midtones)] + [FloatField(k.highlights)]
  }

  /** Each field has the kind parse's image lambda reads at its place, and the lambda's object literal rebuilds the keyframe. */
  lemma ImageFieldsInverse(k: ImageKeyFrame)
    ensures Shaped(ImageFields(k), ImageKinds)
    ensures ImageOf(ImageFields(k)) == k
  {
    ImageFieldsShaped(k);
  }

  lemma ImageFieldsShaped(k: ImageKeyFrame)
    ensures Shaped(ImageFields(k), ImageKinds)
  {
    var r := ImageFields(k);
    forall i | 0 <= i < |r| ensures OfKind(r[i], ImageKinds[i]) {
      if i == 0 {} else if i == 1 {} else if i == 2 {} else if i == 3 {} else if i == 4 {} else if i == 5 {}
      else if i == 6 {} else if i == 7 {} else if i == 8 {} else if i == 9 {} else if i == 10 {} else if i == 11 {} else {}
    }
  }

  lemma ImageFieldsWritable(k: ImageKeyFrame)
    ensures AllWritable(ImageFields(k))
  {
    var r := [TimespanField(k.time)];
    WritableSnoc(r, FloatField(k.sharpness));
    r := r + [FloatField(k.sharpness)];
    WritableSnoc(r, FloatField(k.colorExposureBias));
    r := r + [FloatField(k.colorExposureBias)];
    WritableSnoc(r, FloatField(k.colorWhiteTemperature));
    r := r + [FloatField(k.colorWhiteTemperature)];
    WritableSnoc(r, FloatField(k.colorWhiteTint));
    r := r + [FloatField(k.colorWhiteTint)];
    WritableSnoc(r, Vector4Field(k.colorSaturation));
    r := r + [Vector4Field(k.colorSaturation)];
    WritableSnoc(r, Vector4Field(k.colorContrast));
    r := r + [Vector4Field(k.colorContrast)];
    WritableSnoc(r, Vector4Field(k.colorGamma));
    r := r + [Vector4Field(k.colorGamma)];
    WritableSnoc(r, Vector4Field(k.colorGain));
    r := r + [Vector4Field(k.colorGain)];
    WritableSnoc(r, Vector4Field(k.colorOffset));
    r := r + [Vector4Field(k.colorOffset)];
    WritableSnoc(r, FloatField(k.shadows));
    r := r + [FloatField(k.shadows)];
    WritableSnoc(r, FloatField(k.midtones));
    r := r + [FloatField(k.midtones)];
    WritableSnoc(r, FloatField(k.highlights));
    r := r + [FloatField(k.highlights)];
  }

  const ImageKinds: seq<Kind> := [
    TimespanKind, FloatKind, FloatKind, FloatKind, FloatKind, Vector4Kind, Vector4Kind, Vector4Kind,
    Vector4Kind, Vector4Kind, FloatKind, FloatKind, FloatKind
  ]

  /** The object literal of parse's image lambda; it holds the fields read, by name. */
  function ImageOf(fs: seq<Field>): ImageKeyFrame
    requires Shaped(fs, ImageKinds)
  {
    ImageKeyFrame(
      fs[0].span, fs[1].float, fs[2].float, fs[3].float, fs[4].float, fs[5].vector4, fs[6].vector4,
      fs[7].vector4, fs[8].vector4, fs[9].vector4, fs[10].float, fs[11].float, fs[12].float)
  }

  // ---- AudioKeyFrame ----

  /** writeAudioKeyFrame: the fields in the order the writer emits them. */
  function AudioFields(k: AudioKeyFrame): seq<Field> {
    [TimespanField(k.time)] + [FloatField(k.timeOffset)] + [FloatField(k.volumeMultiplier)]
  }

  /** Each field has the kind parse's audio lambda reads at its place, and the lambda's object literal rebuilds the keyframe. */
  lemma AudioFieldsInverse(k: AudioKeyFrame)
    ensures Shaped(AudioFields(k), AudioKinds)
    ensures AudioOf(AudioFields(k)) == k
  {
    AudioFieldsShaped(k);
  }

  lemma AudioFieldsShaped(k: AudioKeyFrame)
    ensures Shaped(AudioFields(k), AudioKinds)
  {
    var r := AudioFields(k);
    forall i | 0 <= i < |r| ensures OfKind(r[i], AudioKinds[i]) {
      if i == 0 {} else if i == 1 {} else {}
    }
  }

  lemma AudioFieldsWritable(k: AudioKeyFrame)
    ensures AllWritable(AudioFields(k))
  {
    var r := [TimespanField(k.time)];
    WritableSnoc(r, FloatField(k.timeOffset));
    r := r + [FloatField(k.timeOffset)];
    WritableSnoc(r, FloatField(k.volumeMultiplier));
    r := r + [FloatField(k.volumeMultiplier)];
  }

  const AudioKinds: seq<Kind> := [
    TimespanKind, FloatKind, FloatKind
  ]

  /** The object literal of parse's audio lambda; it holds the fields read, by name. */
  function AudioOf(fs: seq<Field>): AudioKeyFrame
    requires Shaped(fs, AudioKinds)
  {
    AudioKeyFrame(
      fs[0].span, fs[1].float, fs[2].float)
  }

  // ---- EnvironmentKeyFrame ----

  /** writeEnvironmentKeyFrame: the fields in the order the writer emits them. */
  function EnvironmentFields(k: EnvironmentKeyFrame): seq<Field> {
    [TimespanField(k.time)] + [EnumField(Enums.BackgroundType, k.backgroundType)] +
    [LinearColorField(k.backgroundColor)] + [TextField(k.backgroundName)] +
    [EnumField(Enums.MaskType, k.maskType)] + [FloatField(k.opacityScale)] +
    [LinearColorField(k.chromaKey1Color)] + [LinearColorField(k.chromaKey1Settings)] +
    [LinearColorField(k.chromaKey2Color)] + [LinearColorField(k.chromaKey2Settings)] +
    [LinearColorField(k.chromaKey3Color)] + [LinearColorField(k.chromaKey3Settings)] +
    [LinearColorField(k.despillColor)] + [LinearColorField(k.despillSettings)] +
    [LinearColorField(k.lightColor)] + [LinearColorField(k.alphaCoordinates)]
  }

  /** Each field has the kind parse's environment lambda reads at its place, and the lambda's object literal rebuilds the keyframe. */
  lemma EnvironmentFieldsInverse(k: EnvironmentKeyFrame)
    ensures Shaped(EnvironmentFields(k), EnvironmentKinds)
    ensures EnvironmentOf(EnvironmentFields(k)) == k
  {
    EnvironmentFieldsShaped(k);
  }

  lemma EnvironmentFieldsShaped(k: EnvironmentKeyFrame)
    ensures Shaped(EnvironmentFields(k), EnvironmentKinds)
  {
    var r := EnvironmentFields(k);
    forall i | 0 <= i < |r| ensures OfKind(r[i], EnvironmentKinds[i]) {
      if i == 0 {} else if i == 1 {} else if i == 2 {} else if i == 3 {} else if i == 4 {} else if i == 5 {}
      else if i == 6 {} else if i == 7 {} else if i == 8 {} else if i == 9 {} else if i == 10 {} else if i == 11 {}
      else if i == 12 {} else if i == 13 {} else if i == 14 {} else {}
    }
  }

  lemma EnvironmentFieldsWritable(k: EnvironmentKeyFrame)
    requires EnvironmentWritable(k)
    ensures AllWritable(EnvironmentFields(k))
  {
    var r := [TimespanField(k.time)];
    WritableSnoc(r, EnumField(Enums.BackgroundType, k.backgroundType));
    r := r + [EnumField(Enums.BackgroundType, k.backgroundType)];
    WritableSnoc(r, LinearColorField(k.backgroundColor));
    r := r + [LinearColorField(k.backgroundColor)];
    WritableSnoc(r, TextField(k.backgroundName));
    r := r + [TextField(k.backgroundName)];
    WritableSnoc(r, EnumField(Enums.MaskType, k.maskType));
    r := r + [EnumField(Enums.MaskType, k.maskType)];
    WritableSnoc(r, FloatField(k.opacityScale));
    r := r + [FloatField(k.opacityScale)];
    WritableSnoc(r, LinearColorField(k.chromaKey1Color));
    r := r + [LinearColorField(k.chromaKey1Color)];
    WritableSnoc(r, LinearColorField(k.chromaKey1Settings));
    r := r + [LinearColorField(k.chromaKey1Settings)];
    WritableSnoc(r, LinearColorField(k.chromaKey2Color));
    r := r + [LinearColorField(k.chromaKey2Color)];
    WritableSnoc(r, LinearColorField(k.chromaKey2Settings));
    r := r + [LinearColorField(k.chromaKey2Settings)];
    WritableSnoc(r, LinearColorField(k.chromaKey3Color));
    r := r + [LinearColorField(k.chromaKey3Color)];
    WritableSnoc(r, LinearColorField(k.chromaKey3Settings));
    r := r + [LinearColorField(k.chromaKey3Settings)];
    WritableSnoc(r, LinearColorField(k.despillColor));
    r := r + [LinearColorField(k.despillColor)];
    WritableSnoc(r, LinearColorField(k.despillSettings));
    r := r + [LinearColorField(k.despillSettings)];
    WritableSnoc(r, LinearColorField(k.lightColor));
    r := r + [LinearColorField(k.lightColor)];
    WritableSnoc(r, LinearColorField(k.alphaCoordinates));
    r := r + [LinearColorField(k.alphaCoordinates)];
  }

  const EnvironmentKinds: seq<Kind> := [
    TimespanKind, EnumKind(Enums.BackgroundType), LinearColorKind, TextKind, EnumKind(Enums.MaskType),
    FloatKind, LinearColorKind, LinearColorKind, LinearColorKind, LinearColorKind, LinearColorKind,
    LinearColorKind, LinearColorKind, LinearColorKind, LinearColorKind, LinearColorKind
  ]

  /** The object literal of parse's environment lambda; it holds the fields read, by name. */
  function EnvironmentOf(fs: seq<Field>): EnvironmentKeyFrame
    requires Shaped(fs, EnvironmentKinds)
  {
    EnvironmentKeyFrame(
      fs[0].span, fs[1].name, fs[2].color, fs[3].text, fs[4].name, fs[5].float, fs[6].color, fs[7].color,
      fs[8].color, fs[9].color, fs[10].color, fs[11].color, fs[12].color, fs[13].color, fs[14].color,
      fs[15].color)
  }

  /** writeArray over the format track accepts every keyframe of a track that fits the count word. */
  lemma FormatArrayWritable(xs: seq<FormatKeyFrame>)
    requires |xs| < TWO32
    ensures ArrayWritable(Records(xs, FormatFields))
  {
    forall k: FormatKeyFrame ensures AllWritable(FormatFields(k)) {
      FormatFieldsWritable(k);
    }
    ObjectArrayWritable(xs, FormatFields, (k: FormatKeyFrame) => true);
  }

  /** writeArray over the lens track accepts every keyframe whose texts fit their length words. */
  lemma LensArrayWritable(xs: seq<LensKeyFrame>)
    requires |xs| < TWO32 && forall i :: 0 <= i < |xs| ==> LensWritable(xs[i])
    ensures ArrayWritable(Records(xs, LensFields))
  {
    forall k | LensWritable(k) ensures AllWritable(LensFields(k)) {
      LensFieldsWritable(k);
    }
    ObjectArrayWritable(xs, LensFields, LensWritable);
  }

  /** writeArray over the stitch track accepts every keyframe of a track that fits the count word. */
  lemma StitchArrayWritable(xs: seq<StitchKeyFrame>)
    requires |xs| < TWO32
    ensures ArrayWritable(Records(xs, StitchFields))
  {
    forall k: StitchKeyFrame ensures AllWritable(StitchFields(k)) {
      StitchFieldsWritable(k);
    }
    ObjectArrayWritable(xs, StitchFields, (k: StitchKeyFrame) => true);
  }

  /** writeArray over the alignment track accepts every keyframe of a track that fits the count word. */
  lemma AlignmentArrayWritable(xs: seq<AlignmentKeyFrame>)
    requires |xs| < TWO32
    ensures ArrayWritable(Records(xs, AlignmentFields))
  {
    forall k: AlignmentKeyFrame ensures AllWritable(AlignmentFields(k)) {
      AlignmentFieldsWritable(k);
    }
    ObjectArrayWritable(xs, AlignmentFields, (k: AlignmentKeyFrame) => true);
  }

  /** writeArray over the orientation track accepts every keyframe of a track that fits the count word. */
  lemma OrientationArrayWritable(xs: seq<OrientationKeyFrame>)
    requires |xs| < TWO32
    ensures ArrayWritable(Records(xs, OrientationFields))
  {
    forall k: OrientationKeyFrame ensures AllWritable(OrientationFields(k)) {
      OrientationFieldsWritable(k);
    }
    ObjectArrayWritable(xs, OrientationFields, (k: OrientationKeyFrame) => true);
  }

  /** writeArray over the origin track accepts every keyframe of a track that fits the count word. */
  lemma OriginArrayWritable(xs: seq<OriginKeyFrame>)
    requires |xs| < TWO32
    ensures ArrayWritable(Records(xs, OriginFields))
  {
    forall k: OriginKeyFrame ensures AllWritable(OriginFields(k)) {
      OriginFieldsWritable(k);
    }
    ObjectArrayWritable(xs, OriginFields, (k: OriginKeyFrame) => true);
  }

  /** writeArray over the motion track accepts every keyframe of a track that fits the count word. */
  lemma MotionArrayWritable(xs: seq<MotionKeyFrame>)
    requires |xs| < TWO32
    ensures ArrayWritable(Records(xs, MotionFields))
  {
    forall k: MotionKeyFrame ensures AllWritable(MotionFields(k)) {
      MotionFieldsWritable(k);
    }
    ObjectArrayWritable(xs, MotionFields, (k: MotionKeyFrame) => true);
  }

  /** writeArray over the autoFocus track accepts every keyframe of a track that fits the count word. */
  lemma AutoFocusArrayWritable(xs: seq<AutoFocusKeyFrame>)
    requires |xs| < TWO32
    ensures ArrayWritable(Records(xs, AutoFocusFields))
  {
    forall k: AutoFocusKeyFrame ensures AllWritable(AutoFocusFields(k)) {
      AutoFocusFieldsWritable(k);
    }
    ObjectArrayWritable(xs, AutoFocusFields, (k: AutoFocusKeyFrame) => true);
  }

  /** writeArray over the sync track accepts every keyframe of a track that fits the count word. */
  lemma SyncArrayWritable(xs: seq<SyncKeyFrame>)
    requires |xs| < TWO32
    ensures ArrayWritable(Records(xs, SyncFields))
  {
    forall k: SyncKeyFrame ensures AllWritable(SyncFields(k)) {
      SyncFieldsWritable(k);
    }
    ObjectArrayWritable(xs, SyncFields, (k: SyncKeyFrame) => true);
  }

  /** writeArray over the transition track accepts every keyframe of a track that fits the count word. */
  lemma TransitionArrayWritable(xs: seq<TransitionKeyFrame>)
    requires |xs| < TWO32
    ensures ArrayWritable(Records(xs, TransitionFields))
  {
    forall k: TransitionKeyFrame ensures AllWritable(TransitionFields(k)) {
      TransitionFieldsWritable(k);
    }
    ObjectArrayWritable(xs, TransitionFields, (k: TransitionKeyFrame) => true);
  }

  /** writeArray over the image track accepts every keyframe of a track that fits the count word. */
  lemma ImageArrayWritable(xs: seq<ImageKeyFrame>)
    requires |xs| < TWO32
    ensures ArrayWritable(Records(xs, ImageFields))
  {
    forall k: ImageKeyFrame ensures AllWritable(ImageFields(k)) {
      ImageFieldsWritable(k);
    }
    ObjectArrayWritable(xs, ImageFields, (k: ImageKeyFrame) => true);
  }

  /** writeArray over the audio track accepts every keyframe of a track that fits the count word. */
  lemma AudioArrayWritable(xs: seq<AudioKeyFrame>)
    requires |xs| < TWO32
    ensures ArrayWritable(Records(xs, AudioFields))
  {
    forall k: AudioKeyFrame ensures AllWritable(AudioFields(k)) {
      AudioFieldsWritable(k);
    }
    ObjectArrayWritable(xs, AudioFields, (k: AudioKeyFrame) => true);
  }

  /** writeArray over the environment track accepts every keyframe whose texts fit their length words. */
  lemma EnvironmentArrayWritable(xs: seq<EnvironmentKeyFrame>)
    requires |xs| < TWO32 && forall i :: 0 <= i < |xs| ==> EnvironmentWritable(xs[i])
    ensures ArrayWritable(Records(xs, EnvironmentFields))
  {
    forall k | EnvironmentWritable(k) ensures AllWritable(EnvironmentFields(k)) {
      EnvironmentFieldsWritable(k);
    }
    ObjectArrayWritable(xs, EnvironmentFields, EnvironmentWritable);
  }

  /** writeData's thirteen writeArray calls: each track a count-prefixed array, in their fixed order. */
  function EncProjectionKeyFrames(p: ProjectionKeyFrames): seq<byte>
    requires TracksWritable(p)
  {
    FormatArrayWritable(p.formatKFs);
    LensArrayWritable(p.lensKFs);
    StitchArrayWritable(p.stitchKFs);
    AlignmentArrayWritable(p.alignmentKFs);
    OrientationArrayWritable(p.orientationKFs);
    OriginArrayWritable(p.originKFs);
    MotionArrayWritable(p.motionKFs);
    AutoFocusArrayWritable(p.autoFocusKFs);
    SyncArrayWritable(p.syncKFs);
    TransitionArrayWritable(p.transitionKFs);
    ImageArrayWritable(p.imageKFs);
    AudioArrayWritable(p.audioKFs);
    EnvironmentArrayWritable(p.environmentKFs);
    EncArray(Records(p.formatKFs, FormatFields))
    + EncArray(Records(p.lensKFs, LensFields))
    + EncArray(Records(p.stitchKFs, StitchFields))
    + EncArray(Records(p.alignmentKFs, AlignmentFields))
    + EncArray(Records(p.orientationKFs, OrientationFields))
    + EncArray(Records(p.originKFs, OriginFields))
    + EncArray(Records(p.motionKFs, MotionFields))
    + EncArray(Records(p.autoFocusKFs, AutoFocusFields))
    + EncArray(Records(p.syncKFs, SyncFields))
    + EncArray(Records(p.transitionKFs, TransitionFields))
    + EncArray(Records(p.imageKFs, ImageFields))
    + EncArray(Records(p.audioKFs, AudioFields))
    + EncArray(Records(p.environmentKFs, EnvironmentFields))
  }

  /** The thirteen arrays writeData appends, each accepted by writeArray. */
  lemma TracksUnfold(p: ProjectionKeyFrames)
    requires TracksWritable(p)
    ensures ArrayWritable(Records(p.formatKFs, FormatFields))
    ensures ArrayWritable(Records(p.lensKFs, LensFields))
    ensures ArrayWritable(Records(p.stitchKFs, StitchFields))
    ensures ArrayWritable(Records(p.alignmentKFs, AlignmentFields))
    ensures ArrayWritable(Records(p.orientationKFs, OrientationFields))
    ensures ArrayWritable(Records(p.originKFs, OriginFields))
    ensures ArrayWritable(Records(p.motionKFs, MotionFields))
    ensures ArrayWritable(Records(p.autoFocusKFs, AutoFocusFields))
    ensures ArrayWritable(Records(p.syncKFs, SyncFields))
    ensures ArrayWritable(Records(p.transitionKFs, TransitionFields))
    ensures ArrayWritable(Records(p.imageKFs, ImageFields))
    ensures ArrayWritable(Records(p.audioKFs, AudioFields))
    ensures ArrayWritable(Records(p.environmentKFs, EnvironmentFields))
    ensures EncProjectionKeyFrames(p) ==
    EncArray(Records(p.formatKFs, FormatFields))
    + EncArray(Records(p.lensKFs, LensFields))
    + EncArray(Records(p.stitchKFs, StitchFields))
    + EncArray(Records(p.alignmentKFs, AlignmentFields))
    + EncArray(Records(p.orientationKFs, OrientationFields))
    + EncArray(Records(p.originKFs, OriginFields))
    + EncArray(Records(p.motionKFs, MotionFields))
    + EncArray(Records(p.autoFocusKFs, AutoFocusFields))
    + EncArray(Records(p.syncKFs, SyncFields))
    + EncArray(Records(p.transitionKFs, TransitionFields))
    + EncArray(Records(p.imageKFs, ImageFields))
    + EncArray(Records(p.audioKFs, AudioFields))
    + EncArray(Records(p.environmentKFs, EnvironmentFields))
  {
    FormatArrayWritable(p.formatKFs);
    LensArrayWritable(p.lensKFs);
    StitchArrayWritable(p.stitchKFs);
    AlignmentArrayWritable(p.alignmentKFs);
    OrientationArrayWritable(p.orientationKFs);
    OriginArrayWritable(p.originKFs);
    MotionArrayWritable(p.motionKFs);
    AutoFocusArrayWritable(p.autoFocusKFs);
    SyncArrayWritable(p.syncKFs);
    TransitionArrayWritable(p.transitionKFs);
    ImageArrayWritable(p.imageKFs);
    AudioArrayWritable(p.audioKFs);
    EnvironmentArrayWritable(p.environmentKFs);
  }

  /** parse's thirteen readArray calls, in the same order, each with the callback that builds its keyframes. */
  function DecProjectionKeyFrames(s: seq<byte>): Option<Parsed<ProjectionKeyFrames>> {
    var format :- DecObjects(s, FormatKinds, FormatOf);
    var lens :- DecObjects(format.rest, LensKinds, LensOf);
    var stitch :- DecObjects(lens.rest, StitchKinds, StitchOf);
    var alignment :- DecObjects(stitch.rest, AlignmentKinds, AlignmentOf);
    var orientation :- DecObjects(alignment.rest, OrientationKinds, OrientationOf);
    var origin :- DecObjects(orientation.rest, OriginKinds, OriginOf);
    var motion :- DecObjects(origin.rest, MotionKinds, MotionOf);
    var autoFocus :- DecObjects(motion.rest, AutoFocusKinds, AutoFocusOf);
    var sync :- DecObjects(autoFocus.rest, SyncKinds, SyncOf);
    var transition :- DecObjects(sync.rest, TransitionKinds, TransitionOf);
    var image :- DecObjects(transition.rest, ImageKinds, ImageOf);
    var audio :- DecObjects(image.rest, AudioKinds, AudioOf);
    var environment :- DecObjects(audio.rest, EnvironmentKinds, EnvironmentOf);
    Some(Parsed(ProjectionKeyFrames(
      format.value, lens.value, stitch.value, alignment.value, orientation.value, origin.value, motion.value,
      autoFocus.value, sync.value, transition.value, image.value, audio.value, environment.value),
      environment.rest))
  }

  // ---- the document ----

  /** writeData's fields between the version word and the tag array. */
  function MetadataFields(d: ProjectFile): seq<Field> {
    [TextField(d.uniqueID)] + [TextField(d.title)] + [TextField(d.description)] +
    [DateTimeField(d.dateAdded)] + [DateTimeField(d.dateReleased)] + [DateTimeField(d.dateLastPlayed)] +
    [DateTimeField(d.dateEdited)] + [TimespanField(d.duration)] + [TimespanField(d.resumeTime)] +
    [TimespanField(d.abLoopStartTime)] + [TimespanField(d.abLoopEndTime)] + [UInt32Field(d.playCount)] +
    [UInt32Field(d.comments)] + [UInt32Field(d.favorites)] + [BoolField(d.isFavorite)] +
    [FloatField(d.averageRating)] + [UInt32Field(d.audioTrack)]
  }

  /** The metadata fields have the kinds parse reads, and parse's document holds them by name. */
  lemma MetadataFieldsInverse(d: ProjectFile)
    ensures Shaped(MetadataFields(d), MetadataKinds)
    ensures DocumentOf(d.version, MetadataFields(d), d.tags, d.projectionKFs) == d
  {
    MetadataFieldsShaped(d);
  }

  lemma MetadataFieldsShaped(d: ProjectFile)
    ensures Shaped(MetadataFields(d), MetadataKinds)
  {
    var r := MetadataFields(d);
    forall i | 0 <= i < |r| ensures OfKind(r[i], MetadataKinds[i]) {
      if i == 0 {} else if i == 1 {} else if i == 2 {} else if i == 3 {} else if i == 4 {} else if i == 5 {}
      else if i == 6 {} else if i == 7 {} else if i == 8 {} else if i == 9 {} else if i == 10 {} else if i == 11 {}
      else if i == 12 {} else if i == 13 {} else if i == 14 {} else if i == 15 {} else {}
    }
  }

  lemma MetadataFieldsWritable(d: ProjectFile)
    requires TextFits(d.uniqueID) && TextFits(d.title) && TextFits(d.description)
    ensures AllWritable(MetadataFields(d))
  {
    var r := [TextField(d.uniqueID)];
    WritableSnoc(r, TextField(d.title));
    r := r + [TextField(d.title)];
    WritableSnoc(r, TextField(d.description));
    r := r + [TextField(d.description)];
    WritableSnoc(r, DateTimeField(d.dateAdded));
    r := r + [DateTimeField(d.dateAdded)];
    WritableSnoc(r, DateTimeField(d.dateReleased));
    r := r + [DateTimeField(d.dateReleased)];
    WritableSnoc(r, DateTimeField(d.dateLastPlayed));
    r := r + [DateTimeField(d.dateLastPlayed)];
    WritableSnoc(r, DateTimeField(d.dateEdited));
    r := r + [DateTimeField(d.dateEdited)];
    WritableSnoc(r, TimespanField(d.duration));
    r := r + [TimespanField(d.duration)];
    WritableSnoc(r, TimespanField(d.resumeTime));
    r := r + [TimespanField(d.resumeTime)];
    WritableSnoc(r, TimespanField(d.abLoopStartTime));
    r := r + [TimespanField(d.abLoopStartTime)];
    WritableSnoc(r, TimespanField(d.abLoopEndTime));
    r := r + [TimespanField(d.abLoopEndTime)];
    WritableSnoc(r, UInt32Field(d.playCount));
    r := r + [UInt32Field(d.playCount)];
    WritableSnoc(r, UInt32Field(d.comments));
    r := r + [UInt32Field(d.comments)];
    WritableSnoc(r, UInt32Field(d.favorites));
    r := r + [UInt32Field(d.favorites)];
    WritableSnoc(r, BoolField(d.isFavorite));
    r := r + [BoolField(d.isFavorite)];
    WritableSnoc(r, FloatField(d.averageRating));
    r := r + [FloatField(d.averageRating)];
    WritableSnoc(r, UInt32Field(d.audioTrack));
    r := r + [UInt32Field(d.audioTrack)];
  }

  const MetadataKinds: seq<Kind> := [
    TextKind, TextKind, TextKind, DateTimeKind, DateTimeKind, DateTimeKind, DateTimeKind, TimespanKind,
    TimespanKind, TimespanKind, TimespanKind, UInt32Kind, UInt32Kind, UInt32Kind, BoolKind, FloatKind,
    UInt32Kind
  ]

  /** The document parse builds: the version, the metadata fields read, the tags and the tracks. */
  function DocumentOf(version: int, fs: seq<Field>, tags: seq<Tag>, p: ProjectionKeyFrames): ProjectFile
    requires Shaped(fs, MetadataKinds)
  {
    ProjectFile(
      version,
      fs[0].text, fs[1].text, fs[2].text, fs[3].date, fs[4].date, fs[5].date, fs[6].date, fs[7].span,
      fs[8].span, fs[9].span, fs[10].span, fs[11].word, fs[12].word, fs[13].word, fs[14].flag, fs[15].float,
      fs[16].word,
      tags, p)
  }

  /** writeArray over the tags with writeHSTag accepts every tag that fits. */
  lemma TagArrayWritable(tags: seq<Tag>)
    requires TagsWritable(tags)
    ensures ArrayWritable(Records(tags, TagFields))
  {
    forall g | TagWritable(g) ensures AllWritable(TagFields(g)) {
      TagFieldsWritable(g);
    }
    ObjectArrayWritable(tags, TagFields, TagWritable);
  }

  /** What follows the version word: metadata, the tag array, the thirteen tracks. */
  function EncFieldsOf(d: ProjectFile): seq<byte>
    requires DocumentWritable(d)
  {
    MetadataFieldsWritable(d);
    TagArrayWritable(d.tags);
    EncFields(MetadataFields(d)) + EncArray(Records(d.tags, TagFields)) + EncProjectionKeyFrames(d.projectionKFs)
  }

  /** Everything after the content-length word: the version word, then the fields. */
  function EncBody(d: ProjectFile): seq<byte>
    requires DocumentWritable(d)
  {
    EncU32(d.version) + EncFieldsOf(d)
  }

  /** The content-length word only fits when the body is shorter than 4 GiB. */
  predicate PayloadFits(d: ProjectFile) {
    DocumentWritable(d) && |EncBody(d)| < TWO32
  }

  /** writeData's result: the back-patched content-length word, then the body. */
  function EncData(d: ProjectFile): (r: seq<byte>)
    requires PayloadFits(d)
    ensures |r| == 4 + |EncBody(d)| && r[4..] == EncBody(d)
    ensures FromLE(r[..4]) == |r| - 4
  {
    FromLEOfLE(|EncBody(d)|, 4);
    EncU32(|EncBody(d)|) + EncBody(d)
  }

  /** The fields after the version word, read into a document of the given version. */
  function DecDocument(version: int, s: seq<byte>): (r: Option<Parsed<ProjectFile>>)
    ensures r.Some? ==> r.value.value.version == version
  {
    var meta :- DecFields(MetadataKinds, s);
    var tags :- DecObjects(meta.rest, TagKinds, TagOf);
    var tracks :- DecProjectionKeyFrames(tags.rest);
    Some(Parsed(DocumentOf(version, meta.value, tags.value, tracks.value), tracks.rest))
  }

  /** How parse fails: a read past the end (RangeError), or a version other than 7. */
  datatype DecodeError = Underrun | UnsupportedVersion(version: int)

  const SupportedVersion: int := 7

  /**
   * parse: the content-length word is read and ignored, the version word is
   * checked before any other field, then the fields follow; bytes after the
   * last track are not looked at.
   */
  function Decode(s: seq<byte>): (r: Result<ProjectFile, DecodeError>)
    ensures |s| < 8 ==> r == Err(Underrun)
    ensures |s| >= 8 && FromLE(s[4..8]) != SupportedVersion ==> r == Err(UnsupportedVersion(FromLE(s[4..8])))
    ensures r.Ok? ==> r.value.version == SupportedVersion
  {
    match DecU32(s)
    case None => Err(Underrun)
    case Some(length) =>
      match DecU32(length.rest)
      case None => Err(Underrun)
      case Some(version) =>
        assert s[4..8] == length.rest[..4];
        if version.value != SupportedVersion then Err(UnsupportedVersion(version.value))
        else
          match DecDocument(version.value, version.rest)
          case None => Err(Underrun)
          case Some(doc) => Ok(doc.value)
  }
}
