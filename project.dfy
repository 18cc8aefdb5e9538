/**
 * The project document of format version 7: the metadata record, its tags
 * and the thirteen keyframe tracks, with the field types the JSON side
 * carries. Enum fields hold the table name, or None where JavaScript would
 * hold `undefined` (a missing field, or a byte the table does not name).
 */
module Project {
  import opened Wrappers
  import opened Bytes
  import opened Primitives
  import Enums

  datatype Tag = Tag(name: Text, rating: Float32, start: Millis, end: Millis, track: int)

  datatype FormatKeyFrame = FormatKeyFrame(
    time: Millis,
    projectionMode: Option<string>,
    stereoMode: Option<string>,
    eyeSwapEnabled: bool,
    forceMonoEnabled: bool,
    flipFrontBack: bool,
    flipLeftRight: bool,
    flipUpDown: bool,
    aspectRatioType: Option<string>,
    aspectRatio: Float32,
    zoom: Vector2D,
    pan: Vector2D,
    orientationType: Option<string>)

  datatype LensKeyFrame = LensKeyFrame(
    time: Millis,
    trueLensName: Text,
    exportLensName: Text,
    trueLensCalibration: LinearColor,
    exportLensCalibration: LinearColor,
    trueFOV: Float32,
    exportFOV: Float32)

  datatype StitchKeyFrame = StitchKeyFrame(
    time: Millis, shift: Vector4, scale: Vector4, shear: Vector4, flare: Vector4, slant: Vector4)

  datatype AlignmentKeyFrame = AlignmentKeyFrame(time: Millis, position: Vector, rotation: Rotator)

  datatype OrientationKeyFrame = OrientationKeyFrame(time: Millis, orientation: Rotator)

  datatype OriginKeyFrame = OriginKeyFrame(time: Millis, origin: Vector)

  datatype MotionKeyFrame = MotionKeyFrame(time: Millis, motionDistance: Float32)

  datatype AutoFocusKeyFrame = AutoFocusKeyFrame(
    time: Millis,
    rotation: Rotator,
    focalDistanceOverride: Float32,
    minFocusDistance: Float32,
    maxFocusDistance: Float32,
    focusTransitionSpeed: Float32)

  datatype SyncKeyFrame = SyncKeyFrame(time: Millis, startingTicksOffset: Millis, ticksPerHoursOffset: Millis)

  /** The JSON field `type` (a reserved word here). */
  datatype TransitionKeyFrame = TransitionKeyFrame(time: Millis, transitionType: Option<string>, duration: Millis)

  datatype ImageKeyFrame = ImageKeyFrame(
    time: Millis,
    sharpness: Float32,
    colorExposureBias: Float32,
    colorWhiteTemperature: Float32,
    colorWhiteTint: Float32,
    colorSaturation: Vector4,
    colorContrast: Vector4,
    colorGamma: Vector4,
    colorGain: Vector4,
    colorOffset: Vector4,
    shadows: Float32,
    midtones: Float32,
    highlights: Float32)

  datatype AudioKeyFrame = AudioKeyFrame(time: Millis, timeOffset: Float32, volumeMultiplier: Float32)

  datatype EnvironmentKeyFrame = EnvironmentKeyFrame(
    time: Millis,
    backgroundType: Option<string>,
    backgroundColor: LinearColor,
    backgroundName: Text,
    maskType: Option<string>,
    opacityScale: Float32,
    chromaKey1Color: LinearColor,
    chromaKey1Settings: LinearColor,
    chromaKey2Color: LinearColor,
    chromaKey2Settings: LinearColor,
    chromaKey3Color: LinearColor,
    chromaKey3Settings: LinearColor,
    despillColor: LinearColor,
    despillSettings: LinearColor,
    lightColor: LinearColor,
    alphaCoordinates: LinearColor)

  datatype ProjectionKeyFrames = ProjectionKeyFrames(
    formatKFs: seq<FormatKeyFrame>,
    lensKFs: seq<LensKeyFrame>,
    stitchKFs: seq<StitchKeyFrame>,
    alignmentKFs: seq<AlignmentKeyFrame>,
    orientationKFs: seq<OrientationKeyFrame>,
    originKFs: seq<OriginKeyFrame>,
    motionKFs: seq<MotionKeyFrame>,
    autoFocusKFs: seq<AutoFocusKeyFrame>,
    syncKFs: seq<SyncKeyFrame>,
    transitionKFs: seq<TransitionKeyFrame>,
    imageKFs: seq<ImageKeyFrame>,
    audioKFs: seq<AudioKeyFrame>,
    environmentKFs: seq<EnvironmentKeyFrame>)

  datatype ProjectFile = ProjectFile(
    version: int,
    uniqueID: Text,
    title: Text,
    description: Text,
    dateAdded: DateMs,
    dateReleased: DateMs,
    dateLastPlayed: DateMs,
    dateEdited: DateMs,
    duration: Millis,
    resumeTime: Millis,
    abLoopStartTime: Millis,
    abLoopEndTime: Millis,
    playCount: U32,
    comments: U32,
    favorites: U32,
    isFavorite: bool,
    averageRating: Float32,
    audioTrack: U32,
    tags: seq<Tag>,
    projectionKFs: ProjectionKeyFrames)

  // ---- what the writer accepts without a RangeError ----

  predicate TagWritable(g: Tag) {
    TextFits(g.name) && -TWO31 <= g.track < TWO31
  }

  predicate LensWritable(k: LensKeyFrame) {
    TextFits(k.trueLensName) && TextFits(k.exportLensName)
  }

  predicate EnvironmentWritable(k: EnvironmentKeyFrame) {
    TextFits(k.backgroundName)
  }

  predicate TracksWritable(p: ProjectionKeyFrames) {
    |p.formatKFs| < TWO32 && |p.lensKFs| < TWO32 && |p.stitchKFs| < TWO32 && |p.alignmentKFs| < TWO32
    && |p.orientationKFs| < TWO32 && |p.originKFs| < TWO32 && |p.motionKFs| < TWO32
    && |p.autoFocusKFs| < TWO32 && |p.syncKFs| < TWO32 && |p.transitionKFs| < TWO32
    && |p.imageKFs| < TWO32 && |p.audioKFs| < TWO32 && |p.environmentKFs| < TWO32
    && (forall i :: 0 <= i < |p.lensKFs| ==> LensWritable(p.lensKFs[i]))
    && (forall i :: 0 <= i < |p.environmentKFs| ==> EnvironmentWritable(p.environmentKFs[i]))
  }

  predicate TagsWritable(tags: seq<Tag>) {
    |tags| < TWO32 && forall i :: 0 <= i < |tags| ==> TagWritable(tags[i])
  }

  /** Every field within the width the writer gives it (the content length is checked separately). */
  predicate DocumentWritable(d: ProjectFile) {
    0 <= d.version < TWO32
    && TextFits(d.uniqueID) && TextFits(d.title) && TextFits(d.description)
    && TagsWritable(d.tags) && TracksWritable(d.projectionKFs)
  }

  // ---- what comes back unchanged through the reader ----

  predicate TagCanonical(g: Tag) {
    PlainText(g.name) && 0 <= g.track < TWO31
  }

  predicate FormatCanonical(k: FormatKeyFrame) {
    Named(Enums.ProjectionMode, k.projectionMode) && Named(Enums.StereoMode, k.stereoMode)
    && Named(Enums.AspectRatioType, k.aspectRatioType) && Named(Enums.OrientationType, k.orientationType)
  }

  predicate LensCanonical(k: LensKeyFrame) {
    PlainText(k.trueLensName) && PlainText(k.exportLensName)
  }

  predicate TransitionCanonical(k: TransitionKeyFrame) {
    Named(Enums.KeyFrameTransitionType, k.transitionType)
  }

  predicate EnvironmentCanonical(k: EnvironmentKeyFrame) {
    Named(Enums.BackgroundType, k.backgroundType) && PlainText(k.backgroundName)
    && Named(Enums.MaskType, k.maskType)
  }

  predicate TracksCanonical(p: ProjectionKeyFrames) {
    TracksWritable(p)
    && (forall i :: 0 <= i < |p.formatKFs| ==> FormatCanonical(p.formatKFs[i]))
    && (forall i :: 0 <= i < |p.lensKFs| ==> LensCanonical(p.lensKFs[i]))
    && (forall i :: 0 <= i < |p.transitionKFs| ==> TransitionCanonical(p.transitionKFs[i]))
    && (forall i :: 0 <= i < |p.environmentKFs| ==> EnvironmentCanonical(p.environmentKFs[i]))
  }

  /**
   * A version-7 document whose texts are ASCII, whose enum fields name table
   * entries and whose tag tracks are non-negative Int32 values.
   */
  predicate DocumentCanonical(d: ProjectFile) {
    d.version == 7 && DocumentWritable(d)
    && PlainText(d.uniqueID) && PlainText(d.title) && PlainText(d.description)
    && (forall i :: 0 <= i < |d.tags| ==> TagCanonical(d.tags[i]))
    && TracksCanonical(d.projectionKFs)
  }
}
