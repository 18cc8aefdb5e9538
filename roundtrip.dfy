/**
 * The reader inverts the writer. Record by record, the fields writeData
 * emits for a JSON object read back, with parse's kinds, as the same fields,
 * and parse's object literal rebuilds the object; array by array and track
 * by track the same holds; and for a whole document parse returns exactly
 * the document writeData was given. This holds with the tick counts of
 * times and dates computed exactly; the program computes them in doubles,
 * so there a DateTime field (and a timespan above 2^53 ticks) can come back
 * 1 ms early. Within the model, the one field that does not come back
 * unchanged is a tag's track: written as Int32 and read as UInt32, a
 * negative track comes back 2^32 larger.
 */
module RoundTrip {
  import opened Wrappers
  import opened Bytes
  import opened Primitives
  import opened Fields
  import opened Project
  import opened Schema

  // ---- FormatKeyFrame ----

  lemma FormatFieldsCanonical(k: FormatKeyFrame)
    requires FormatCanonical(k)
    ensures AllCanonical(FormatFields(k))
  {
    // Field by field: one quantified step over all thirteen positions costs the solver far more.
    var r := [TimespanField(k.time)];
    CanonicalSnoc(r, EnumField(Enums.ProjectionMode, k.projectionMode));
    r := r + [EnumField(Enums.ProjectionMode, k.projectionMode)];
    CanonicalSnoc(r, EnumField(Enums.StereoMode, k.stereoMode));
    r := r + [EnumField(Enums.StereoMode, k.stereoMode)];
    CanonicalSnoc(r, BoolField(k.eyeSwapEnabled));
    r := r + [BoolField(k.eyeSwapEnabled)];
    CanonicalSnoc(r, BoolField(k.forceMonoEnabled));
    r := r + [BoolField(k.forceMonoEnabled)];
    CanonicalSnoc(r, BoolField(k.flipFrontBack));
    r := r + [BoolField(k.flipFrontBack)];
    CanonicalSnoc(r, BoolField(k.flipLeftRight));
    r := r + [BoolField(k.flipLeftRight)];
    CanonicalSnoc(r, BoolField(k.flipUpDown));
    r := r + [BoolField(k.flipUpDown)];
    CanonicalSnoc(r, EnumField(Enums.AspectRatioType, k.aspectRatioType));
    r := r + [EnumField(Enums.AspectRatioType, k.aspectRatioType)];
    CanonicalSnoc(r, FloatField(k.aspectRatio));
    r := r + [FloatField(k.aspectRatio)];
    CanonicalSnoc(r, Vector2DField(k.zoom));
    r := r + [Vector2DField(k.zoom)];
    CanonicalSnoc(r, Vector2DField(k.pan));
    r := r + [Vector2DField(k.pan)];
    CanonicalSnoc(r, EnumField(Enums.OrientationType, k.orientationType));
    r := r + [EnumField(Enums.OrientationType, k.orientationType)];
  }

  /** parse's format lambda inverts writeFormatKeyFrame: the same fields come back and rebuild the keyframe. */
  lemma FormatRoundTrip(k: FormatKeyFrame, t: seq<byte>)
    requires FormatCanonical(k)
    ensures AllWritable(FormatFields(k))
    ensures DecFields(FormatKinds, EncFields(FormatFields(k)) + t) == Some(Parsed(FormatFields(k), t))
    ensures FormatOf(FormatFields(k)) == k
  {
    FormatFieldsCanonical(k);
    FormatFieldsInverse(k);
    FieldsRoundTrip(FormatFields(k), FormatKinds, t);
  }

  // ---- LensKeyFrame ----

  lemma LensFieldsCanonical(k: LensKeyFrame)
    requires LensCanonical(k)
    ensures AllCanonical(LensFields(k))
  {
  }

  /** parse's lens lambda inverts writeLensKeyFrame: the same fields come back and rebuild the keyframe. */
  lemma LensRoundTrip(k: LensKeyFrame, t: seq<byte>)
    requires LensCanonical(k)
    ensures AllWritable(LensFields(k))
    ensures DecFields(LensKinds, EncFields(LensFields(k)) + t) == Some(Parsed(LensFields(k), t))
    ensures LensOf(LensFields(k)) == k
  {
    LensFieldsCanonical(k);
    LensFieldsInverse(k);
    FieldsRoundTrip(LensFields(k), LensKinds, t);
  }

  // ---- StitchKeyFrame ----

  lemma StitchFieldsCanonical(k: StitchKeyFrame)
    ensures AllCanonical(StitchFields(k))
  {
  }

  /** parse's stitch lambda inverts writeStitchKeyFrame: the same fields come back and rebuild the keyframe. */
  lemma StitchRoundTrip(k: StitchKeyFrame, t: seq<byte>)
    ensures AllWritable(StitchFields(k))
    ensures DecFields(StitchKinds, EncFields(StitchFields(k)) + t) == Some(Parsed(StitchFields(k), t))
    ensures StitchOf(StitchFields(k)) == k
  {
    StitchFieldsCanonical(k);
    StitchFieldsInverse(k);
    FieldsRoundTrip(StitchFields(k), StitchKinds, t);
  }

  // ---- AlignmentKeyFrame ----

  lemma AlignmentFieldsCanonical(k: AlignmentKeyFrame)
    ensures AllCanonical(AlignmentFields(k))
  {
  }

  /** parse's alignment lambda inverts writeAlignmentKeyFrame: the same fields come back and rebuild the keyframe. */
  lemma AlignmentRoundTrip(k: AlignmentKeyFrame, t: seq<byte>)
    ensures AllWritable(AlignmentFields(k))
    ensures DecFields(AlignmentKinds, EncFields(AlignmentFields(k)) + t) == Some(Parsed(AlignmentFields(k), t))
    ensures AlignmentOf(AlignmentFields(k)) == k
  {
    AlignmentFieldsCanonical(k);
    AlignmentFieldsInverse(k);
    FieldsRoundTrip(AlignmentFields(k), AlignmentKinds, t);
  }

  // ---- OrientationKeyFrame ----

  lemma OrientationFieldsCanonical(k: OrientationKeyFrame)
    ensures AllCanonical(OrientationFields(k))
  {
  }

  /** parse's orientation lambda inverts writeOrientationKeyFrame: the same fields come back and rebuild the keyframe. */
  lemma OrientationRoundTrip(k: OrientationKeyFrame, t: seq<byte>)
    ensures AllWritable(OrientationFields(k))
    ensures DecFields(OrientationKinds, EncFields(OrientationFields(k)) + t) == Some(Parsed(OrientationFields(k), t))
    ensures OrientationOf(OrientationFields(k)) == k
  {
    OrientationFieldsCanonical(k);
    OrientationFieldsInverse(k);
    FieldsRoundTrip(OrientationFields(k), OrientationKinds, t);
  }

  // ---- OriginKeyFrame ----

  lemma OriginFieldsCanonical(k: OriginKeyFrame)
    ensures AllCanonical(OriginFields(k))
  {
  }

  /** parse's origin lambda inverts writeOriginKeyFrame: the same fields come back and rebuild the keyframe. */
  lemma OriginRoundTrip(k: OriginKeyFrame, t: seq<byte>)
    ensures AllWritable(OriginFields(k))
    ensures DecFields(OriginKinds, EncFields(OriginFields(k)) + t) == Some(Parsed(OriginFields(k), t))
    ensures OriginOf(OriginFields(k)) == k
  {
    OriginFieldsCanonical(k);
    OriginFieldsInverse(k);
    FieldsRoundTrip(OriginFields(k), OriginKinds, t);
  }

  // ---- MotionKeyFrame ----

  lemma MotionFieldsCanonical(k: MotionKeyFrame)
    ensures AllCanonical(MotionFields(k))
  {
  }

  /** parse's motion lambda inverts writeMotionKeyFrame: the same fields come back and rebuild the keyframe. */
  lemma MotionRoundTrip(k: MotionKeyFrame, t: seq<byte>)
    ensures AllWritable(MotionFields(k))
    ensures DecFields(MotionKinds, EncFields(MotionFields(k)) + t) == Some(Parsed(MotionFields(k), t))
    ensures MotionOf(MotionFields(k)) == k
  {
    MotionFieldsCanonical(k);
    MotionFieldsInverse(k);
    FieldsRoundTrip(MotionFields(k), MotionKinds, t);
  }

  // ---- AutoFocusKeyFrame ----

  lemma AutoFocusFieldsCanonical(k: AutoFocusKeyFrame)
    ensures AllCanonical(AutoFocusFields(k))
  {
  }

  /** parse's autoFocus lambda inverts writeAutoFocusKeyFrame: the same fields come back and rebuild the keyframe. */
  lemma AutoFocusRoundTrip(k: AutoFocusKeyFrame, t: seq<byte>)
    ensures AllWritable(AutoFocusFields(k))
    ensures DecFields(AutoFocusKinds, EncFields(AutoFocusFields(k)) + t) == Some(Parsed(AutoFocusFields(k), t))
    ensures AutoFocusOf(AutoFocusFields(k)) == k
  {
    AutoFocusFieldsCanonical(k);
    AutoFocusFieldsInverse(k);
    FieldsRoundTrip(AutoFocusFields(k), AutoFocusKinds, t);
  }

  // ---- SyncKeyFrame ----

  lemma SyncFieldsCanonical(k: SyncKeyFrame)
    ensures AllCanonical(SyncFields(k))
  {
  }

  /** parse's sync lambda inverts writeSyncKeyFrame: the same fields come back and rebuild the keyframe. */
  lemma SyncRoundTrip(k: SyncKeyFrame, t: seq<byte>)
    ensures AllWritable(SyncFields(k))
    ensures DecFields(SyncKinds, EncFields(SyncFields(k)) + t) == Some(Parsed(SyncFields(k), t))
    ensures SyncOf(SyncFields(k)) == k
  {
    SyncFieldsCanonical(k);
    SyncFieldsInverse(k);
    FieldsRoundTrip(SyncFields(k), SyncKinds, t);
  }

  // ---- TransitionKeyFrame ----

  lemma TransitionFieldsCanonical(k: TransitionKeyFrame)
    requires TransitionCanonical(k)
    ensures AllCanonical(TransitionFields(k))
  {
  }

  /** parse's transition lambda inverts writeTransitionKeyFrame: the same fields come back and rebuild the keyframe. */
  lemma TransitionRoundTrip(k: TransitionKeyFrame, t: seq<byte>)
    requires TransitionCanonical(k)
    ensures AllWritable(TransitionFields(k))
    ensures DecFields(TransitionKinds, EncFields(TransitionFields(k)) + t) == Some(Parsed(TransitionFields(k), t))
    ensures TransitionOf(TransitionFields(k)) == k
  {
    TransitionFieldsCanonical(k);
    TransitionFieldsInverse(k);
    FieldsRoundTrip(TransitionFields(k), TransitionKinds, t);
  }

  // ---- ImageKeyFrame ----

  lemma ImageFieldsCanonical(k: ImageKeyFrame)
    ensures AllCanonical(ImageFields(k))
  {
  }

  /** parse's image lambda inverts writeImageKeyFrame: the same fields come back and rebuild the keyframe. */
  lemma ImageRoundTrip(k: ImageKeyFrame, t: seq<byte>)
    ensures AllWritable(ImageFields(k))
    ensures DecFields(ImageKinds, EncFields(ImageFields(k)) + t) == Some(Parsed(ImageFields(k), t))
    ensures ImageOf(ImageFields(k)) == k
  {
    ImageFieldsCanonical(k);
    ImageFieldsInverse(k);
    FieldsRoundTrip(ImageFields(k), ImageKinds, t);
  }

  // ---- AudioKeyFrame ----

  lemma AudioFieldsCanonical(k: AudioKeyFrame)
    ensures AllCanonical(AudioFields(k))
  {
  }

  /** parse's audio lambda inverts writeAudioKeyFrame: the same fields come back and rebuild the keyframe. */
  lemma AudioRoundTrip(k: AudioKeyFrame, t: seq<byte>)
    ensures AllWritable(AudioFields(k))
    ensures DecFields(AudioKinds, EncFields(AudioFields(k)) + t) == Some(Parsed(AudioFields(k), t))
    ensures AudioOf(AudioFields(k)) == k
  {
    AudioFieldsCanonical(k);
    AudioFieldsInverse(k);
    FieldsRoundTrip(AudioFields(k), AudioKinds, t);
  }

  // ---- EnvironmentKeyFrame ----

  lemma EnvironmentFieldsCanonical(k: EnvironmentKeyFrame)
    requires EnvironmentCanonical(k)
    ensures AllCanonical(EnvironmentFields(k))
  {
  }

  /** parse's environment lambda inverts writeEnvironmentKeyFrame: the same fields come back and rebuild the keyframe. */
  lemma EnvironmentRoundTrip(k: EnvironmentKeyFrame, t: seq<byte>)
    requires EnvironmentCanonical(k)
    ensures AllWritable(EnvironmentFields(k))
    ensures DecFields(EnvironmentKinds, EncFields(EnvironmentFields(k)) + t) == Some(Parsed(EnvironmentFields(k), t))
    ensures EnvironmentOf(EnvironmentFields(k)) == k
  {
    EnvironmentFieldsCanonical(k);
    EnvironmentFieldsInverse(k);
    FieldsRoundTrip(EnvironmentFields(k), EnvironmentKinds, t);
  }

  /** The formatKFs array: readArray with the format callback inverts writeArray. */
  lemma FormatArrayRoundTrip(xs: seq<FormatKeyFrame>, t: seq<byte>)
    requires |xs| < TWO32 && forall i :: 0 <= i < |xs| ==> FormatCanonical(xs[i])
    ensures ArrayWritable(Records(xs, FormatFields))
    ensures DecObjects(EncArray(Records(xs, FormatFields)) + t, FormatKinds, FormatOf) == Some(Parsed(xs, t))
  {
    forall i | 0 <= i < |xs| ensures Shaped(FormatFields(xs[i]), FormatKinds) && AllCanonical(FormatFields(xs[i])) && FormatOf(FormatFields(xs[i])) == xs[i] {
      FormatFieldsCanonical(xs[i]);
      FormatFieldsInverse(xs[i]);
    }
    ObjectArrayRoundTrip(xs, FormatFields, FormatOf, FormatKinds, t);
  }

  /** The formatKFs track of a document that reads back. */
  lemma FormatTrackRoundTrip(p: ProjectionKeyFrames, t: seq<byte>)
    requires TracksCanonical(p)
    ensures ArrayWritable(Records(p.formatKFs, FormatFields))
    ensures DecObjects(EncArray(Records(p.formatKFs, FormatFields)) + t, FormatKinds, FormatOf) == Some(Parsed(p.formatKFs, t))
  {
    FormatArrayRoundTrip(p.formatKFs, t);
  }

  /** The lensKFs array: readArray with the lens callback inverts writeArray. */
  lemma LensArrayRoundTrip(xs: seq<LensKeyFrame>, t: seq<byte>)
    requires |xs| < TWO32 && forall i :: 0 <= i < |xs| ==> LensCanonical(xs[i])
    ensures ArrayWritable(Records(xs, LensFields))
    ensures DecObjects(EncArray(Records(xs, LensFields)) + t, LensKinds, LensOf) == Some(Parsed(xs, t))
  {
    forall i | 0 <= i < |xs| ensures Shaped(LensFields(xs[i]), LensKinds) && AllCanonical(LensFields(xs[i])) && LensOf(LensFields(xs[i])) == xs[i] {
      LensFieldsCanonical(xs[i]);
      LensFieldsInverse(xs[i]);
    }
    ObjectArrayRoundTrip(xs, LensFields, LensOf, LensKinds, t);
  }

  /** The lensKFs track of a document that reads back. */
  lemma LensTrackRoundTrip(p: ProjectionKeyFrames, t: seq<byte>)
    requires TracksCanonical(p)
    ensures ArrayWritable(Records(p.lensKFs, LensFields))
    ensures DecObjects(EncArray(Records(p.lensKFs, LensFields)) + t, LensKinds, LensOf) == Some(Parsed(p.lensKFs, t))
  {
    LensArrayRoundTrip(p.lensKFs, t);
  }

  /** The stitchKFs array: readArray with the stitch callback inverts writeArray. */
  lemma StitchArrayRoundTrip(xs: seq<StitchKeyFrame>, t: seq<byte>)
    requires |xs| < TWO32
    ensures ArrayWritable(Records(xs, StitchFields))
    ensures DecObjects(EncArray(Records(xs, StitchFields)) + t, StitchKinds, StitchOf) == Some(Parsed(xs, t))
  {
    forall i | 0 <= i < |xs| ensures Shaped(StitchFields(xs[i]), StitchKinds) && AllCanonical(StitchFields(xs[i])) && StitchOf(StitchFields(xs[i])) == xs[i] {
      StitchFieldsCanonical(xs[i]);
      StitchFieldsInverse(xs[i]);
    }
    ObjectArrayRoundTrip(xs, StitchFields, StitchOf, StitchKinds, t);
  }

  /** The stitchKFs track of a document that reads back. */
  lemma StitchTrackRoundTrip(p: ProjectionKeyFrames, t: seq<byte>)
    requires TracksCanonical(p)
    ensures ArrayWritable(Records(p.stitchKFs, StitchFields))
    ensures DecObjects(EncArray(Records(p.stitchKFs, StitchFields)) + t, StitchKinds, StitchOf) == Some(Parsed(p.stitchKFs, t))
  {
    StitchArrayRoundTrip(p.stitchKFs, t);
  }

  /** The alignmentKFs array: readArray with the alignment callback inverts writeArray. */
  lemma AlignmentArrayRoundTrip(xs: seq<AlignmentKeyFrame>, t: seq<byte>)
    requires |xs| < TWO32
    ensures ArrayWritable(Records(xs, AlignmentFields))
    ensures DecObjects(EncArray(Records(xs, AlignmentFields)) + t, AlignmentKinds, AlignmentOf) == Some(Parsed(xs, t))
  {
    forall i | 0 <= i < |xs| ensures Shaped(AlignmentFields(xs[i]), AlignmentKinds) && AllCanonical(AlignmentFields(xs[i])) && AlignmentOf(AlignmentFields(xs[i])) == xs[i] {
      AlignmentFieldsCanonical(xs[i]);
      AlignmentFieldsInverse(xs[i]);
    }
    ObjectArrayRoundTrip(xs, AlignmentFields, AlignmentOf, AlignmentKinds, t);
  }

  /** The alignmentKFs track of a document that reads back. */
  lemma AlignmentTrackRoundTrip(p: ProjectionKeyFrames, t: seq<byte>)
    requires TracksCanonical(p)
    ensures ArrayWritable(Records(p.alignmentKFs, AlignmentFields))
    ensures DecObjects(EncArray(Records(p.alignmentKFs, AlignmentFields)) + t, AlignmentKinds, AlignmentOf) == Some(Parsed(p.alignmentKFs, t))
  {
    AlignmentArrayRoundTrip(p.alignmentKFs, t);
  }

  /** The orientationKFs array: readArray with the orientation callback inverts writeArray. */
  lemma OrientationArrayRoundTrip(xs: seq<OrientationKeyFrame>, t: seq<byte>)
    requires |xs| < TWO32
    ensures ArrayWritable(Records(xs, OrientationFields))
    ensures DecObjects(EncArray(Records(xs, OrientationFields)) + t, OrientationKinds, OrientationOf) == Some(Parsed(xs, t))
  {
    forall i | 0 <= i < |xs| ensures Shaped(OrientationFields(xs[i]), OrientationKinds) && AllCanonical(OrientationFields(xs[i])) && OrientationOf(OrientationFields(xs[i])) == xs[i] {
      OrientationFieldsCanonical(xs[i]);
      OrientationFieldsInverse(xs[i]);
    }
    ObjectArrayRoundTrip(xs, OrientationFields, OrientationOf, OrientationKinds, t);
  }

  /** The orientationKFs track of a document that reads back. */
  lemma OrientationTrackRoundTrip(p: ProjectionKeyFrames, t: seq<byte>)
    requires TracksCanonical(p)
    ensures ArrayWritable(Records(p.orientationKFs, OrientationFields))
    ensures DecObjects(EncArray(Records(p.orientationKFs, OrientationFields)) + t, OrientationKinds, OrientationOf) == Some(Parsed(p.orientationKFs, t))
  {
    OrientationArrayRoundTrip(p.orientationKFs, t);
  }

  /** The originKFs array: readArray with the origin callback inverts writeArray. */
  lemma OriginArrayRoundTrip(xs: seq<OriginKeyFrame>, t: seq<byte>)
    requires |xs| < TWO32
    ensures ArrayWritable(Records(xs, OriginFields))
    ensures DecObjects(EncArray(Records(xs, OriginFields)) + t, OriginKinds, OriginOf) == Some(Parsed(xs, t))
  {
    forall i | 0 <= i < |xs| ensures Shaped(OriginFields(xs[i]), OriginKinds) && AllCanonical(OriginFields(xs[i])) && OriginOf(OriginFields(xs[i])) == xs[i] {
      OriginFieldsCanonical(xs[i]);
      OriginFieldsInverse(xs[i]);
    }
    ObjectArrayRoundTrip(xs, OriginFields, OriginOf, OriginKinds, t);
  }

  /** The originKFs track of a document that reads back. */
  lemma OriginTrackRoundTrip(p: ProjectionKeyFrames, t: seq<byte>)
    requires TracksCanonical(p)
    ensures ArrayWritable(Records(p.originKFs, OriginFields))
    ensures DecObjects(EncArray(Records(p.originKFs, OriginFields)) + t, OriginKinds, OriginOf) == Some(Parsed(p.originKFs, t))
  {
    OriginArrayRoundTrip(p.originKFs, t);
  }

  /** The motionKFs array: readArray with the motion callback inverts writeArray. */
  lemma MotionArrayRoundTrip(xs: seq<MotionKeyFrame>, t: seq<byte>)
    requires |xs| < TWO32
    ensures ArrayWritable(Records(xs, MotionFields))
    ensures DecObjects(EncArray(Records(xs, MotionFields)) + t, MotionKinds, MotionOf) == Some(Parsed(xs, t))
  {
    forall i | 0 <= i < |xs| ensures Shaped(MotionFields(xs[i]), MotionKinds) && AllCanonical(MotionFields(xs[i])) && MotionOf(MotionFields(xs[i])) == xs[i] {
      MotionFieldsCanonical(xs[i]);
      MotionFieldsInverse(xs[i]);
    }
    ObjectArrayRoundTrip(xs, MotionFields, MotionOf, MotionKinds, t);
  }

  /** The motionKFs track of a document that reads back. */
  lemma MotionTrackRoundTrip(p: ProjectionKeyFrames, t: seq<byte>)
    requires TracksCanonical(p)
    ensures ArrayWritable(Records(p.motionKFs, MotionFields))
    ensures DecObjects(EncArray(Records(p.motionKFs, MotionFields)) + t, MotionKinds, MotionOf) == Some(Parsed(p.motionKFs, t))
  {
    MotionArrayRoundTrip(p.motionKFs, t);
  }

  /** The autoFocusKFs array: readArray with the autoFocus callback inverts writeArray. */
  lemma AutoFocusArrayRoundTrip(xs: seq<AutoFocusKeyFrame>, t: seq<byte>)
    requires |xs| < TWO32
    ensures ArrayWritable(Records(xs, AutoFocusFields))
    ensures DecObjects(EncArray(Records(xs, AutoFocusFields)) + t, AutoFocusKinds, AutoFocusOf) == Some(Parsed(xs, t))
  {
    forall i | 0 <= i < |xs| ensures Shaped(AutoFocusFields(xs[i]), AutoFocusKinds) && AllCanonical(AutoFocusFields(xs[i])) && AutoFocusOf(AutoFocusFields(xs[i])) == xs[i] {
      AutoFocusFieldsCanonical(xs[i]);
      AutoFocusFieldsInverse(xs[i]);
    }
    ObjectArrayRoundTrip(xs, AutoFocusFields, AutoFocusOf, AutoFocusKinds, t);
  }

  /** The autoFocusKFs track of a document that reads back. */
  lemma AutoFocusTrackRoundTrip(p: ProjectionKeyFrames, t: seq<byte>)
    requires TracksCanonical(p)
    ensures ArrayWritable(Records(p.autoFocusKFs, AutoFocusFields))
    ensures DecObjects(EncArray(Records(p.autoFocusKFs, AutoFocusFields)) + t, AutoFocusKinds, AutoFocusOf) == Some(Parsed(p.autoFocusKFs, t))
  {
    AutoFocusArrayRoundTrip(p.autoFocusKFs, t);
  }

  /** The syncKFs array: readArray with the sync callback inverts writeArray. */
  lemma SyncArrayRoundTrip(xs: seq<SyncKeyFrame>, t: seq<byte>)
    requires |xs| < TWO32
    ensures ArrayWritable(Records(xs, SyncFields))
    ensures DecObjects(EncArray(Records(xs, SyncFields)) + t, SyncKinds, SyncOf) == Some(Parsed(xs, t))
  {
    forall i | 0 <= i < |xs| ensures Shaped(SyncFields(xs[i]), SyncKinds) && AllCanonical(SyncFields(xs[i])) && SyncOf(SyncFields(xs[i])) == xs[i] {
      SyncFieldsCanonical(xs[i]);
      SyncFieldsInverse(xs[i]);
    }
    ObjectArrayRoundTrip(xs, SyncFields, SyncOf, SyncKinds, t);
  }

  /** The syncKFs track of a document that reads back. */
  lemma SyncTrackRoundTrip(p: ProjectionKeyFrames, t: seq<byte>)
    requires TracksCanonical(p)
    ensures ArrayWritable(Records(p.syncKFs, SyncFields))
    ensures DecObjects(EncArray(Records(p.syncKFs, SyncFields)) + t, SyncKinds, SyncOf) == Some(Parsed(p.syncKFs, t))
  {
    SyncArrayRoundTrip(p.syncKFs, t);
  }

  /** The transitionKFs array: readArray with the transition callback inverts writeArray. */
  lemma TransitionArrayRoundTrip(xs: seq<TransitionKeyFrame>, t: seq<byte>)
    requires |xs| < TWO32 && forall i :: 0 <= i < |xs| ==> TransitionCanonical(xs[i])
    ensures ArrayWritable(Records(xs, TransitionFields))
    ensures DecObjects(EncArray(Records(xs, TransitionFields)) + t, TransitionKinds, TransitionOf) == Some(Parsed(xs, t))
  {
    forall i | 0 <= i < |xs| ensures Shaped(TransitionFields(xs[i]), TransitionKinds) && AllCanonical(TransitionFields(xs[i])) && TransitionOf(TransitionFields(xs[i])) == xs[i] {
      TransitionFieldsCanonical(xs[i]);
      TransitionFieldsInverse(xs[i]);
    }
    ObjectArrayRoundTrip(xs, TransitionFields, TransitionOf, TransitionKinds, t);
  }

  /** The transitionKFs track of a document that reads back. */
  lemma TransitionTrackRoundTrip(p: ProjectionKeyFrames, t: seq<byte>)
    requires TracksCanonical(p)
    ensures ArrayWritable(Records(p.transitionKFs, TransitionFields))
    ensures DecObjects(EncArray(Records(p.transitionKFs, TransitionFields)) + t, TransitionKinds, TransitionOf) == Some(Parsed(p.transitionKFs, t))
  {
    TransitionArrayRoundTrip(p.transitionKFs, t);
  }

  /** The imageKFs array: readArray with the image callback inverts writeArray. */
  lemma ImageArrayRoundTrip(xs: seq<ImageKeyFrame>, t: seq<byte>)
    requires |xs| < TWO32
    ensures ArrayWritable(Records(xs, ImageFields))
    ensures DecObjects(EncArray(Records(xs, ImageFields)) + t, ImageKinds, ImageOf) == Some(Parsed(xs, t))
  {
    forall i | 0 <= i < |xs| ensures Shaped(ImageFields(xs[i]), ImageKinds) && AllCanonical(ImageFields(xs[i])) && ImageOf(ImageFields(xs[i])) == xs[i] {
      ImageFieldsCanonical(xs[i]);
      ImageFieldsInverse(xs[i]);
    }
    ObjectArrayRoundTrip(xs, ImageFields, ImageOf, ImageKinds, t);
  }

  /** The imageKFs track of a document that reads back. */
  lemma ImageTrackRoundTrip(p: ProjectionKeyFrames, t: seq<byte>)
    requires TracksCanonical(p)
    ensures ArrayWritable(Records(p.imageKFs, ImageFields))
    ensures DecObjects(EncArray(Records(p.imageKFs, ImageFields)) + t, ImageKinds, ImageOf) == Some(Parsed(p.imageKFs, t))
  {
    ImageArrayRoundTrip(p.imageKFs, t);
  }

  /** The audioKFs array: readArray with the audio callback inverts writeArray. */
  lemma AudioArrayRoundTrip(xs: seq<AudioKeyFrame>, t: seq<byte>)
    requires |xs| < TWO32
    ensures ArrayWritable(Records(xs, AudioFields))
    ensures DecObjects(EncArray(Records(xs, AudioFields)) + t, AudioKinds, AudioOf) == Some(Parsed(xs, t))
  {
    forall i | 0 <= i < |xs| ensures Shaped(AudioFields(xs[i]), AudioKinds) && AllCanonical(AudioFields(xs[i])) && AudioOf(AudioFields(xs[i])) == xs[i] {
      AudioFieldsCanonical(xs[i]);
      AudioFieldsInverse(xs[i]);
    }
    ObjectArrayRoundTrip(xs, AudioFields, AudioOf, AudioKinds, t);
  }

  /** The audioKFs track of a document that reads back. */
  lemma AudioTrackRoundTrip(p: ProjectionKeyFrames, t: seq<byte>)
    requires TracksCanonical(p)
    ensures ArrayWritable(Records(p.audioKFs, AudioFields))
    ensures DecObjects(EncArray(Records(p.audioKFs, AudioFields)) + t, AudioKinds, AudioOf) == Some(Parsed(p.audioKFs, t))
  {
    AudioArrayRoundTrip(p.audioKFs, t);
  }

  /** The environmentKFs array: readArray with the environment callback inverts writeArray. */
  lemma EnvironmentArrayRoundTrip(xs: seq<EnvironmentKeyFrame>, t: seq<byte>)
    requires |xs| < TWO32 && forall i :: 0 <= i < |xs| ==> EnvironmentCanonical(xs[i])
    ensures ArrayWritable(Records(xs, EnvironmentFields))
    ensures DecObjects(EncArray(Records(xs, EnvironmentFields)) + t, EnvironmentKinds, EnvironmentOf) == Some(Parsed(xs, t))
  {
    forall i | 0 <= i < |xs| ensures Shaped(EnvironmentFields(xs[i]), EnvironmentKinds) && AllCanonical(EnvironmentFields(xs[i])) && EnvironmentOf(EnvironmentFields(xs[i])) == xs[i] {
      EnvironmentFieldsCanonical(xs[i]);
      EnvironmentFieldsInverse(xs[i]);
    }
    ObjectArrayRoundTrip(xs, EnvironmentFields, EnvironmentOf, EnvironmentKinds, t);
  }

  /** The environmentKFs track of a document that reads back. */
  lemma EnvironmentTrackRoundTrip(p: ProjectionKeyFrames, t: seq<byte>)
    requires TracksCanonical(p)
    ensures ArrayWritable(Records(p.environmentKFs, EnvironmentFields))
    ensures DecObjects(EncArray(Records(p.environmentKFs, EnvironmentFields)) + t, EnvironmentKinds, EnvironmentOf) == Some(Parsed(p.environmentKFs, t))
  {
    EnvironmentArrayRoundTrip(p.environmentKFs, t);
  }

  /** Thirteen arrays followed by the rest of the input, grouped from the right: each array, then what follows it. */
  lemma JoinRight(a0: seq<byte>, a1: seq<byte>, a2: seq<byte>, a3: seq<byte>, a4: seq<byte>, a5: seq<byte>, a6: seq<byte>, a7: seq<byte>, a8: seq<byte>, a9: seq<byte>, a10: seq<byte>, a11: seq<byte>, a12: seq<byte>, t: seq<byte>)
    ensures a0 + a1 + a2 + a3 + a4 + a5 + a6 + a7 + a8 + a9 + a10 + a11 + a12 + t
         == a0 + (a1 + (a2 + (a3 + (a4 + (a5 + (a6 + (a7 + (a8 + (a9 + (a10 + (a11 + (a12 + t))))))))))))
  {
    AppendAssoc(a0 + a1 + a2 + a3 + a4 + a5 + a6 + a7 + a8 + a9 + a10 + a11, a12, t);
    AppendAssoc(a0 + a1 + a2 + a3 + a4 + a5 + a6 + a7 + a8 + a9 + a10, a11, a12 + t);
    AppendAssoc(a0 + a1 + a2 + a3 + a4 + a5 + a6 + a7 + a8 + a9, a10, a11 + (a12 + t));
    AppendAssoc(a0 + a1 + a2 + a3 + a4 + a5 + a6 + a7 + a8, a9, a10 + (a11 + (a12 + t)));
    AppendAssoc(a0 + a1 + a2 + a3 + a4 + a5 + a6 + a7, a8, a9 + (a10 + (a11 + (a12 + t))));
    AppendAssoc(a0 + a1 + a2 + a3 + a4 + a5 + a6, a7, a8 + (a9 + (a10 + (a11 + (a12 + t)))));
    AppendAssoc(a0 + a1 + a2 + a3 + a4 + a5, a6, a7 + (a8 + (a9 + (a10 + (a11 + (a12 + t))))));
    AppendAssoc(a0 + a1 + a2 + a3 + a4, a5, a6 + (a7 + (a8 + (a9 + (a10 + (a11 + (a12 + t)))))));
    AppendAssoc(a0 + a1 + a2 + a3, a4, a5 + (a6 + (a7 + (a8 + (a9 + (a10 + (a11 + (a12 + t))))))));
    AppendAssoc(a0 + a1 + a2, a3, a4 + (a5 + (a6 + (a7 + (a8 + (a9 + (a10 + (a11 + (a12 + t)))))))));
    AppendAssoc(a0 + a1, a2, a3 + (a4 + (a5 + (a6 + (a7 + (a8 + (a9 + (a10 + (a11 + (a12 + t))))))))));
    AppendAssoc(a0, a1, a2 + (a3 + (a4 + (a5 + (a6 + (a7 + (a8 + (a9 + (a10 + (a11 + (a12 + t)))))))))));
  }

  /** When each readArray call returns its track and leaves the next array first, parse's thirteen calls return the tracks. */
  lemma TracksReadBack(p: ProjectionKeyFrames, a0: seq<byte>, a1: seq<byte>, a2: seq<byte>, a3: seq<byte>, a4: seq<byte>, a5: seq<byte>, a6: seq<byte>, a7: seq<byte>, a8: seq<byte>, a9: seq<byte>, a10: seq<byte>, a11: seq<byte>, a12: seq<byte>, t: seq<byte>)
    requires DecObjects(a0 + (a1 + (a2 + (a3 + (a4 + (a5 + (a6 + (a7 + (a8 + (a9 + (a10 + (a11 + (a12 + t)))))))))))), FormatKinds, FormatOf) == Some(Parsed(p.formatKFs, a1 + (a2 + (a3 + (a4 + (a5 + (a6 + (a7 + (a8 + (a9 + (a10 + (a11 + (a12 + t)))))))))))))
    requires DecObjects(a1 + (a2 + (a3 + (a4 + (a5 + (a6 + (a7 + (a8 + (a9 + (a10 + (a11 + (a12 + t))))))))))), LensKinds, LensOf) == Some(Parsed(p.lensKFs, a2 + (a3 + (a4 + (a5 + (a6 + (a7 + (a8 + (a9 + (a10 + (a11 + (a12 + t))))))))))))
    requires DecObjects(a2 + (a3 + (a4 + (a5 + (a6 + (a7 + (a8 + (a9 + (a10 + (a11 + (a12 + t)))))))))), StitchKinds, StitchOf) == Some(Parsed(p.stitchKFs, a3 + (a4 + (a5 + (a6 + (a7 + (a8 + (a9 + (a10 + (a11 + (a12 + t)))))))))))
    requires DecObjects(a3 + (a4 + (a5 + (a6 + (a7 + (a8 + (a9 + (a10 + (a11 + (a12 + t))))))))), AlignmentKinds, AlignmentOf) == Some(Parsed(p.alignmentKFs, a4 + (a5 + (a6 + (a7 + (a8 + (a9 + (a10 + (a11 + (a12 + t))))))))))
    requires DecObjects(a4 + (a5 + (a6 + (a7 + (a8 + (a9 + (a10 + (a11 + (a12 + t)))))))), OrientationKinds, OrientationOf) == Some(Parsed(p.orientationKFs, a5 + (a6 + (a7 + (a8 + (a9 + (a10 + (a11 + (a12 + t)))))))))
    requires DecObjects(a5 + (a6 + (a7 + (a8 + (a9 + (a10 + (a11 + (a12 + t))))))), OriginKinds, OriginOf) == Some(Parsed(p.originKFs, a6 + (a7 + (a8 + (a9 + (a10 + (a11 + (a12 + t))))))))
    requires DecObjects(a6 + (a7 + (a8 + (a9 + (a10 + (a11 + (a12 + t)))))), MotionKinds, MotionOf) == Some(Parsed(p.motionKFs, a7 + (a8 + (a9 + (a10 + (a11 + (a12 + t)))))))
    requires DecObjects(a7 + (a8 + (a9 + (a10 + (a11 + (a12 + t))))), AutoFocusKinds, AutoFocusOf) == Some(Parsed(p.autoFocusKFs, a8 + (a9 + (a10 + (a11 + (a12 + t))))))
    requires DecObjects(a8 + (a9 + (a10 + (a11 + (a12 + t)))), SyncKinds, SyncOf) == Some(Parsed(p.syncKFs, a9 + (a10 + (a11 + (a12 + t)))))
    requires DecObjects(a9 + (a10 + (a11 + (a12 + t))), TransitionKinds, TransitionOf) == Some(Parsed(p.transitionKFs, a10 + (a11 + (a12 + t))))
    requires DecObjects(a10 + (a11 + (a12 + t)), ImageKinds, ImageOf) == Some(Parsed(p.imageKFs, a11 + (a12 + t)))
    requires DecObjects(a11 + (a12 + t), AudioKinds, AudioOf) == Some(Parsed(p.audioKFs, a12 + t))
    requires DecObjects(a12 + t, EnvironmentKinds, EnvironmentOf) == Some(Parsed(p.environmentKFs, t))
    ensures DecProjectionKeyFrames(a0 + (a1 + (a2 + (a3 + (a4 + (a5 + (a6 + (a7 + (a8 + (a9 + (a10 + (a11 + (a12 + t))))))))))))) == Some(Parsed(p, t))
  {
  }

  /** parse's thirteen readArray calls return the thirteen tracks writeData wrote, whatever follows them. */
  lemma TracksRoundTrip(p: ProjectionKeyFrames, t: seq<byte>)
    requires TracksCanonical(p)
    ensures DecProjectionKeyFrames(EncProjectionKeyFrames(p) + t) == Some(Parsed(p, t))
  {
    TracksUnfold(p);
    var a0 := EncArray(Records(p.formatKFs, FormatFields));
    var a1 := EncArray(Records(p.lensKFs, LensFields));
    var a2 := EncArray(Records(p.stitchKFs, StitchFields));
    var a3 := EncArray(Records(p.alignmentKFs, AlignmentFields));
    var a4 := EncArray(Records(p.orientationKFs, OrientationFields));
    var a5 := EncArray(Records(p.originKFs, OriginFields));
    var a6 := EncArray(Records(p.motionKFs, MotionFields));
    var a7 := EncArray(Records(p.autoFocusKFs, AutoFocusFields));
    var a8 := EncArray(Records(p.syncKFs, SyncFields));
    var a9 := EncArray(Records(p.transitionKFs, TransitionFields));
    var a10 := EncArray(Records(p.imageKFs, ImageFields));
    var a11 := EncArray(Records(p.audioKFs, AudioFields));
    var a12 := EncArray(Records(p.environmentKFs, EnvironmentFields));
    JoinRight(a0, a1, a2, a3, a4, a5, a6, a7, a8, a9, a10, a11, a12, t);
    FormatTrackRoundTrip(p, a1 + (a2 + (a3 + (a4 + (a5 + (a6 + (a7 + (a8 + (a9 + (a10 + (a11 + (a12 + t))))))))))));
    LensTrackRoundTrip(p, a2 + (a3 + (a4 + (a5 + (a6 + (a7 + (a8 + (a9 + (a10 + (a11 + (a12 + t)))))))))));
    StitchTrackRoundTrip(p, a3 + (a4 + (a5 + (a6 + (a7 + (a8 + (a9 + (a10 + (a11 + (a12 + t))))))))));
    AlignmentTrackRoundTrip(p, a4 + (a5 + (a6 + (a7 + (a8 + (a9 + (a10 + (a11 + (a12 + t)))))))));
    OrientationTrackRoundTrip(p, a5 + (a6 + (a7 + (a8 + (a9 + (a10 + (a11 + (a12 + t))))))));
    OriginTrackRoundTrip(p, a6 + (a7 + (a8 + (a9 + (a10 + (a11 + (a12 + t)))))));
    MotionTrackRoundTrip(p, a7 + (a8 + (a9 + (a10 + (a11 + (a12 + t))))));
    AutoFocusTrackRoundTrip(p, a8 + (a9 + (a10 + (a11 + (a12 + t)))));
    SyncTrackRoundTrip(p, a9 + (a10 + (a11 + (a12 + t))));
    TransitionTrackRoundTrip(p, a10 + (a11 + (a12 + t)));
    ImageTrackRoundTrip(p, a11 + (a12 + t));
    AudioTrackRoundTrip(p, a12 + t);
    EnvironmentTrackRoundTrip(p, t);
    TracksReadBack(p, a0, a1, a2, a3, a4, a5, a6, a7, a8, a9, a10, a11, a12, t);
  }

  // ---- tags ----

  /** The track as readUInt32LE sees the bytes writeInt32LE wrote. */
  function TrackAsRead(track: int): (r: int)
    ensures 0 <= r < TWO32 && r % TWO32 == track % TWO32
    ensures 0 <= track < TWO32 ==> r == track
    ensures -TWO32 <= track < 0 ==> r == track + TWO32
  {
    track % TWO32
  }

  /** The fields parse's tag lambda reads back from writeHSTag's bytes. */
  function TagReadFields(g: Tag): (r: seq<Field>)
    ensures Shaped(r, TagKinds)
  {
    [TextField(g.name)] + [FloatField(g.rating)] + [TimespanField(g.start)] + [TimespanField(g.end)]
    + [UInt32Field(TrackAsRead(g.track))]
  }

  /** Both field lists are the same bytes: a track's Int32 bytes are the bytes of its UInt32 reading. */
  lemma TagBytesAgree(g: Tag)
    requires TagWritable(g)
    ensures AllWritable(TagFields(g)) && AllWritable(TagReadFields(g))
    ensures EncFields(TagFields(g)) == EncFields(TagReadFields(g))
  {
    TagFieldsWritable(g);
    var w, r := TagFields(g), TagReadFields(g);
    var head := w[..4];
    assert r[..4] == head;
    assert w == head + [w[4]] && r == head + [r[4]];
    EncFieldsSnoc(head, w[4]);
    EncFieldsSnoc(head, r[4]);
  }

  /** The fields read back for a tag with an ASCII name are the canonical ones. */
  lemma TagReadCanonical(g: Tag)
    requires TagWritable(g) && PlainText(g.name)
    ensures AllCanonical(TagReadFields(g))
  {
  }

  /**
   * writeHSTag then the tag lambda: name, rating, start and end come back
   * unchanged, and the track comes back as its unsigned 32-bit reading.
   */
  lemma TagRoundTrip(g: Tag, t: seq<byte>)
    requires TagWritable(g) && PlainText(g.name)
    ensures AllWritable(TagFields(g))
    ensures DecFields(TagKinds, EncFields(TagFields(g)) + t) == Some(Parsed(TagReadFields(g), t))
    ensures TagOf(TagReadFields(g)) == g.(track := TrackAsRead(g.track))
  {
    TagBytesAgree(g);
    TagReadCanonical(g);
    FieldsRoundTrip(TagReadFields(g), TagKinds, t);
  }

  /** A tag whose track is not negative comes back exactly. */
  lemma CanonicalTagRoundTrip(g: Tag, t: seq<byte>)
    requires TagCanonical(g)
    ensures TagWritable(g)
    ensures DecFields(TagKinds, EncFields(TagFields(g)) + t) == Some(Parsed(TagReadFields(g), t))
    ensures TagOf(TagReadFields(g)) == g
  {
    TagRoundTrip(g, t);
  }

  /** A tag with a negative track does not come back: its track returns 2^32 larger. */
  lemma NegativeTrackChanges(g: Tag, t: seq<byte>)
    requires TagWritable(g) && PlainText(g.name) && g.track < 0
    ensures TagOf(TagReadFields(g)) != g
    ensures TagOf(TagReadFields(g)).track == g.track + TWO32
  {
    TagRoundTrip(g, t);
  }

  /** The tags' written records and the records parse reads back are the same bytes. */
  lemma TagRecordsAgree(tags: seq<Tag>)
    requires TagsWritable(tags)
    ensures ArrayWritable(Records(tags, TagFields)) && ArrayWritable(Records(tags, TagReadFields))
    ensures EncArray(Records(tags, TagFields)) == EncArray(Records(tags, TagReadFields))
  {
    TagArrayWritable(tags);
    RecordsAt(tags, TagFields);
    RecordsAt(tags, TagReadFields);
    var ws, rs := Records(tags, TagFields), Records(tags, TagReadFields);
    forall i | 0 <= i < |tags| ensures AllWritable(rs[i]) && EncFields(ws[i]) == EncFields(rs[i]) {
      TagBytesAgree(tags[i]);
    }
    EncElemsAgree(ws, rs);
  }

  /** The tags as parse returns them: each one with its track as read. */
  function TagsAsRead(tags: seq<Tag>): (r: seq<Tag>)
    ensures |r| == |tags|
    ensures forall i :: 0 <= i < |r| ==> r[i] == tags[i].(track := TrackAsRead(tags[i].track))
  {
    seq(|tags|, i requires 0 <= i < |tags| => tags[i].(track := TrackAsRead(tags[i].track)))
  }

  /** Reading a tag's track a second time changes nothing: the fields read back are the same. */
  lemma ReadFieldsAsRead(tags: seq<Tag>)
    ensures Records(TagsAsRead(tags), TagReadFields) == Records(tags, TagReadFields)
  {
    var read := TagsAsRead(tags);
    RecordsAt(read, TagReadFields);
    RecordsAt(tags, TagReadFields);
    forall i | 0 <= i < |tags| ensures TagReadFields(read[i]) == TagReadFields(tags[i]) {
    }
  }

  /** One tag as parse returns it reads back from its own read fields. */
  lemma TagAsReadBack(g: Tag)
    requires TagWritable(g) && PlainText(g.name)
    ensures var h := g.(track := TrackAsRead(g.track));
      Shaped(TagReadFields(h), TagKinds) && AllCanonical(TagReadFields(h)) && TagOf(TagReadFields(h)) == h
  {
    var h := g.(track := TrackAsRead(g.track));
    assert TagReadFields(h) == TagReadFields(g);
    TagReadCanonical(g);
  }

  /** The tag array read back: every tag, in order, with its track as read. */
  lemma TagsRoundTrip(tags: seq<Tag>, t: seq<byte>)
    requires TagsWritable(tags)
    requires forall i :: 0 <= i < |tags| ==> PlainText(tags[i].name)
    ensures ArrayWritable(Records(tags, TagFields))
    ensures DecObjects(EncArray(Records(tags, TagFields)) + t, TagKinds, TagOf) == Some(Parsed(TagsAsRead(tags), t))
  {
    TagRecordsAgree(tags);
    var read := TagsAsRead(tags);
    ReadFieldsAsRead(tags);
    forall i | 0 <= i < |read|
      ensures Shaped(TagReadFields(read[i]), TagKinds) && AllCanonical(TagReadFields(read[i])) && TagOf(TagReadFields(read[i])) == read[i]
    {
      TagAsReadBack(tags[i]);
    }
    ObjectArrayRoundTrip(read, TagReadFields, TagOf, TagKinds, t);
  }

  /** Tags whose tracks are not negative come back exactly. */
  lemma CanonicalTagsRoundTrip(tags: seq<Tag>, t: seq<byte>)
    requires TagsWritable(tags)
    requires forall i :: 0 <= i < |tags| ==> TagCanonical(tags[i])
    ensures ArrayWritable(Records(tags, TagFields))
    ensures DecObjects(EncArray(Records(tags, TagFields)) + t, TagKinds, TagOf) == Some(Parsed(tags, t))
  {
    NonNegativeTracksRead(tags);
    TagsRoundTrip(tags, t);
  }

  /** Tracks that are not negative read back unchanged. */
  lemma NonNegativeTracksRead(tags: seq<Tag>)
    requires forall i :: 0 <= i < |tags| ==> TagCanonical(tags[i])
    ensures TagsAsRead(tags) == tags
  {
    var read := TagsAsRead(tags);
    forall i | 0 <= i < |tags| ensures read[i] == tags[i] {
    }
  }

  // ---- the document ----

  lemma MetadataRoundTrip(d: ProjectFile, t: seq<byte>)
    requires PlainText(d.uniqueID) && PlainText(d.title) && PlainText(d.description)
    ensures AllWritable(MetadataFields(d))
    ensures DecFields(MetadataKinds, EncFields(MetadataFields(d)) + t) == Some(Parsed(MetadataFields(d), t))
    ensures DocumentOf(d.version, MetadataFields(d), d.tags, d.projectionKFs) == d
  {
    MetadataFieldsCanonical(d);
    MetadataFieldsInverse(d);
    FieldsRoundTrip(MetadataFields(d), MetadataKinds, t);
  }

  lemma MetadataFieldsCanonical(d: ProjectFile)
    requires PlainText(d.uniqueID) && PlainText(d.title) && PlainText(d.description)
    ensures AllCanonical(MetadataFields(d))
  {
  }

  /** parse's reads after the version word: the metadata, the tag array, then the tracks. */
  lemma DecDocumentSteps(version: int, s: seq<byte>, m: Parsed<seq<Field>>, g: Parsed<seq<Tag>>, k: Parsed<ProjectionKeyFrames>)
    requires DecFields(MetadataKinds, s) == Some(m)
    requires DecObjects(m.rest, TagKinds, TagOf) == Some(g)
    requires DecProjectionKeyFrames(g.rest) == Some(k)
    ensures Shaped(m.value, MetadataKinds)
    ensures DecDocument(version, s) == Some(Parsed(DocumentOf(version, m.value, g.value, k.value), k.rest))
  {
  }

  /** What follows the version word, cut at the tag array and at the first track. */
  lemma EncFieldsOfSplit(d: ProjectFile, t: seq<byte>)
    requires DocumentWritable(d)
    ensures AllWritable(MetadataFields(d)) && ArrayWritable(Records(d.tags, TagFields))
    ensures EncFieldsOf(d) + t
         == EncFields(MetadataFields(d)) + (EncArray(Records(d.tags, TagFields)) + (EncProjectionKeyFrames(d.projectionKFs) + t))
  {
    MetadataFieldsWritable(d);
    TagArrayWritable(d.tags);
    var m, a, k := EncFields(MetadataFields(d)), EncArray(Records(d.tags, TagFields)), EncProjectionKeyFrames(d.projectionKFs);
    AppendAssoc(m + a, k, t);
    AppendAssoc(m, a, k + t);
  }

  /** The fields after the version word read back as the document, whatever follows them. */
  lemma DocumentRoundTrip(d: ProjectFile, t: seq<byte>)
    requires DocumentCanonical(d)
    ensures DecDocument(d.version, EncFieldsOf(d) + t) == Some(Parsed(d, t))
  {
    EncFieldsOfSplit(d, t);
    var m := EncFields(MetadataFields(d));
    var a := EncArray(Records(d.tags, TagFields));
    var k := EncProjectionKeyFrames(d.projectionKFs);
    MetadataRoundTrip(d, a + (k + t));
    CanonicalTagsRoundTrip(d.tags, k + t);
    TracksRoundTrip(d.projectionKFs, t);
    DecDocumentSteps(d.version, m + (a + (k + t)), Parsed(MetadataFields(d), a + (k + t)),
      Parsed(d.tags, k + t), Parsed(d.projectionKFs, t));
  }

  /**
   * parse inverts writeData: a document of version 7 whose texts are ASCII,
   * whose enum names are listed and whose tag tracks are not negative is
   * read back exactly, and bytes after the last track are ignored.
   */
  lemma DecodeRoundTrip(d: ProjectFile, t: seq<byte>)
    requires DocumentCanonical(d) && PayloadFits(d)
    ensures Decode(EncData(d) + t) == Ok(d)
  {
    EncDataSplit(d, t);
    var body := EncFieldsOf(d) + t;
    U32RoundTrip(|EncBody(d)|, EncU32(d.version) + body);
    U32RoundTrip(d.version, body);
    DocumentRoundTrip(d, t);
    DecodeSteps(EncData(d) + t, Parsed(|EncBody(d)|, EncU32(d.version) + body), Parsed(d.version, body), Parsed(d, t));
  }

  /** A document of any version but 7 is written by writeData and then refused by parse. */
  lemma WrongVersionRejected(d: ProjectFile, t: seq<byte>)
    requires PayloadFits(d) && d.version != SupportedVersion
    ensures Decode(EncData(d) + t) == Err(UnsupportedVersion(d.version))
  {
    EncDataSplit(d, t);
    var body := EncFieldsOf(d) + t;
    U32RoundTrip(|EncBody(d)|, EncU32(d.version) + body);
    U32RoundTrip(d.version, body);
    RejectSteps(EncData(d) + t, Parsed(|EncBody(d)|, EncU32(d.version) + body), Parsed(d.version, body));
  }

  /** parse's reads: the content-length word, then a version word other than 7, and nothing more. */
  lemma RejectSteps(s: seq<byte>, n: Parsed<int>, v: Parsed<int>)
    requires DecU32(s) == Some(n) && DecU32(n.rest) == Some(v) && v.value != SupportedVersion
    ensures Decode(s) == Err(UnsupportedVersion(v.value))
  {
  }

  /** writeData's bytes, cut after the content-length word and after the version word. */
  lemma EncDataSplit(d: ProjectFile, t: seq<byte>)
    requires PayloadFits(d)
    ensures EncData(d) + t == EncU32(|EncBody(d)|) + (EncU32(d.version) + (EncFieldsOf(d) + t))
  {
    AppendAssoc(EncU32(|EncBody(d)|), EncBody(d), t);
    AppendAssoc(EncU32(d.version), EncFieldsOf(d), t);
  }

  /** parse's reads: the content-length word, a supported version word, then the document. */
  lemma DecodeSteps(s: seq<byte>, n: Parsed<int>, v: Parsed<int>, doc: Parsed<ProjectFile>)
    requires DecU32(s) == Some(n) && DecU32(n.rest) == Some(v) && v.value == SupportedVersion
    requires DecDocument(v.value, v.rest) == Some(doc)
    ensures Decode(s) == Ok(doc.value)
  {
  }
}
