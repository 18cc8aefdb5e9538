/**
 * The seven closed enumerations of the project format. Each table lists its
 * names in code order, so the name of byte code c is t[c]. The reverse
 * direction (name to code) is derived from the forward table, and the
 * source's combined lookup object (numeric keys and names in one object) is
 * modelled as a string-keyed map built by the same loop.
 */
module Enums {
  import opened Wrappers

  type Table = seq<string>

  const ProjectionMode: Table :=
    ["Perspective", "Equirectangular", "Fisheye", "Equirectangular360", "Cubemap", "EquiangularCubemap"]
  const StereoMode: Table := ["Mono", "SideBySide", "TopBottom"]
  const KeyFrameTransitionType: Table := ["Blink", "SidewaysBlink", "Circle"]
  const AspectRatioType: Table := ["Autodetect", "Standard", "HighDefinition", "WideScreen", "Custom"]
  const OrientationType: Table := ["Up", "Left", "Right", "Down"]
  const BackgroundType: Table := ["GlobalSetting", "Color", "Passthrough"]
  const MaskType: Table := ["None", "ChromaKey", "AlphaPacked"]

  /** Forward lookup: the name of a byte code, none outside 0..|t|-1. */
  function Name(t: Table, code: int): (r: Option<string>)
    ensures r.Some? <==> 0 <= code < |t|
    ensures r.Some? ==> r.value == t[code]
  {
    if 0 <= code < |t| then Some(t[code]) else None
  }

  /**
   * Reverse lookup derived from the forward table. The entries are added in
   * code order, so if a name occurred twice the larger code would win.
   */
  function Code(t: Table, name: string): (r: Option<nat>)
    ensures r.Some? <==> name in t
    ensures r.Some? ==> r.value < |t| && t[r.value] == name
    ensures r.Some? ==> forall j :: r.value < j < |t| ==> t[j] != name
  {
    if t == [] then None
    else if t[|t| - 1] == name then Some(|t| - 1)
    else Code(t[..|t| - 1], name)
  }

  predicate Distinct(t: Table) {
    forall i, j :: 0 <= i < j < |t| ==> t[i] != t[j]
  }

  /** code(name(c)) = c: going to the name and back yields the code. */
  lemma CodeOfName(t: Table, c: int)
    requires Distinct(t) && 0 <= c < |t|
    ensures Name(t, c).Some? && Code(t, Name(t, c).value) == Some(c)
  {
  }

  /** name(code(n)) = n: going to the code and back yields the name. */
  lemma NameOfCode(t: Table, n: string)
    requires n in t
    ensures Code(t, n).Some? && Name(t, Code(t, n).value) == Some(n)
  {
  }

  // ---- the combined lookup object ----

  predicate IsNumeral(s: string) {
    |s| > 0 && forall i :: 0 <= i < |s| ==> '0' <= s[i] <= '9'
  }

  function Digit(d: nat): (c: char)
    requires d < 10
    ensures '0' <= c <= '9'
  {
    ('0' as int + d) as char
  }

  /** The decimal property key that the object uses for the integer n. */
  function Numeral(n: nat): (r: string)
    ensures IsNumeral(r)
    ensures n < 10 <==> |r| == 1
  {
    if n < 10 then [Digit(n)] else Numeral(n / 10) + [Digit(n % 10)]
  }

  lemma {:induction false} NumeralInjective(m: nat, n: nat)
    requires Numeral(m) == Numeral(n)
    ensures m == n
  {
    if m >= 10 && n >= 10 {
      var a, b := Numeral(m), Numeral(n);
      assert a[..|a| - 1] == Numeral(m / 10) && b[..|b| - 1] == Numeral(n / 10);
      NumeralInjective(m / 10, n / 10);
      assert a[|a| - 1] == Digit(m % 10) && b[|b| - 1] == Digit(n % 10);
    }
  }

  predicate NoNumeralNames(t: Table) {
    forall i :: 0 <= i < |t| ==> !IsNumeral(t[i])
  }

  /** The literal table as an object: the decimal key of each code to its name. */
  function Forward(t: Table): (m: map<string, string>)
    ensures forall c: nat :: Numeral(c) in m <==> c < |t|
    ensures forall c :: 0 <= c < |t| ==> m[Numeral(c)] == t[c]
  {
    if t == [] then map[]
    else
      var last := |t| - 1;
      var m0 := Forward(t[..last]);
      forall c: nat | c != last ensures Numeral(c) != Numeral(last) {
        if Numeral(c) == Numeral(last) { NumeralInjective(c, last); }
      }
      m0[Numeral(last) := t[last]]
  }

  /** The reverse entries, assigned in code order: each name to the key of its code. */
  function Reverse(t: Table): map<string, string>
  {
    if t == [] then map[] else Reverse(t[..|t| - 1])[t[|t| - 1] := Numeral(|t| - 1)]
  }

  /** The reverse entries agree with the reverse lookup `Code`. */
  lemma {:induction false} ReverseIsCode(t: Table, n: string)
    ensures n in Reverse(t) <==> n in t
    ensures n in t ==> Reverse(t)[n] == Numeral(Code(t, n).value)
  {
    if t != [] {
      var p := t[..|t| - 1];
      ReverseIsCode(p, n);
      assert t == p + [t[|t| - 1]];
    }
  }

  /**
   * The source's loop over one table: it walks the table's entries in key
   * order and sets object[name] := key, on the same object that holds the
   * forward entries.
   */
  method AddReverseEntries(t: Table) returns (obj: map<string, string>)
    ensures obj == Combined(t)
  {
    obj := Forward(t);
    var i := 0;
    while i < |t|
      invariant 0 <= i <= |t|
      invariant obj == Forward(t) + Reverse(t[..i])
    {
      ReverseStep(t, i);
      obj := obj[t[i] := Numeral(i)];
      i := i + 1;
    }
    assert t[..i] == t;
  }

  /** One more pass of the loop sets one more reverse entry over the object. */
  lemma ReverseStep(t: Table, i: nat)
    requires i < |t|
    ensures Forward(t) + Reverse(t[..i + 1]) == (Forward(t) + Reverse(t[..i]))[t[i] := Numeral(i)]
  {
    var r := Reverse(t[..i]);
    assert t[..i + 1][..i] == t[..i];
    assert Reverse(t[..i + 1]) == r[t[i] := Numeral(i)];
  }

  /** The object once the loop has run: forward entries, then reverse entries over them. */
  function Combined(t: Table): map<string, string> {
    Forward(t) + Reverse(t)
  }

  /**
   * With no name spelled as a decimal numeral, adding the reverse entries
   * overwrites no forward entry: every code still finds its name, every
   * name finds the key of its code, and an out-of-range code finds nothing.
   */
  lemma CombinedObject(t: Table)
    requires Distinct(t) && NoNumeralNames(t)
    ensures forall c: nat :: Numeral(c) in Combined(t) <==> c < |t|
    ensures forall c :: 0 <= c < |t| ==> Combined(t)[Numeral(c)] == t[c]
    ensures forall c :: 0 <= c < |t| ==> t[c] in Combined(t) && Combined(t)[t[c]] == Numeral(c)
  {
    forall c: nat ensures Numeral(c) !in Reverse(t) {
      ReverseIsCode(t, Numeral(c));
    }
    forall c | 0 <= c < |t| ensures t[c] in Reverse(t) && Reverse(t)[t[c]] == Numeral(c) {
      ReverseIsCode(t, t[c]);
      CodeOfName(t, c);
    }
  }

  /** Each name begins with a capital letter, so none is a numeral. */
  lemma CapitalisedNames(t: Table)
    requires forall i :: 0 <= i < |t| ==> |t[i]| > 0 && 'A' <= t[i][0] <= 'Z'
    ensures NoNumeralNames(t)
  {
    forall i | 0 <= i < |t| ensures !IsNumeral(t[i]) {
      assert !('0' <= t[i][0] <= '9');
    }
  }

  /** Every table has distinct names, none of them a decimal numeral. */
  predicate WellFormed(t: Table) {
    Distinct(t) && NoNumeralNames(t)
  }

  lemma TablesWellFormed()
    ensures WellFormed(ProjectionMode) && WellFormed(StereoMode) && WellFormed(KeyFrameTransitionType)
    ensures WellFormed(AspectRatioType) && WellFormed(OrientationType) && WellFormed(BackgroundType)
    ensures WellFormed(MaskType)
  {
    ProjectionModeWellFormed();
    StereoModeWellFormed();
    KeyFrameTransitionTypeWellFormed();
    AspectRatioTypeWellFormed();
    OrientationTypeWellFormed();
    BackgroundTypeWellFormed();
    MaskTypeWellFormed();
  }

  lemma ProjectionModeWellFormed()
    ensures WellFormed(ProjectionMode)
  {
    CapitalisedNames(ProjectionMode);
  }

  lemma StereoModeWellFormed()
    ensures WellFormed(StereoMode)
  {
    CapitalisedNames(StereoMode);
  }

  lemma KeyFrameTransitionTypeWellFormed()
    ensures WellFormed(KeyFrameTransitionType)
  {
    CapitalisedNames(KeyFrameTransitionType);
  }

  lemma AspectRatioTypeWellFormed()
    ensures WellFormed(AspectRatioType)
  {
    CapitalisedNames(AspectRatioType);
  }

  lemma OrientationTypeWellFormed()
    ensures WellFormed(OrientationType)
  {
    CapitalisedNames(OrientationType);
  }

  lemma BackgroundTypeWellFormed()
    ensures WellFormed(BackgroundType)
  {
    CapitalisedNames(BackgroundType);
  }

  lemma MaskTypeWellFormed()
    ensures WellFormed(MaskType)
  {
    CapitalisedNames(MaskType);
  }

  /** Table sizes: the codes of each table are exactly 0..n-1. */
  lemma TableSizes()
    ensures |ProjectionMode| == 6 && |StereoMode| == 3 && |KeyFrameTransitionType| == 3
    ensures |AspectRatioType| == 5 && |OrientationType| == 4 && |BackgroundType| == 3 && |MaskType| == 3
  {
  }

  lemma FixedCodes()
    ensures Code(ProjectionMode, "Fisheye") == Some(2)
    ensures Code(StereoMode, "TopBottom") == Some(2)
    ensures Code(OrientationType, "Down") == Some(3)
  {
    TablesWellFormed();
    CodeOfName(ProjectionMode, 2);
    CodeOfName(StereoMode, 2);
    CodeOfName(OrientationType, 3);
  }
}
