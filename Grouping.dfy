/**
 * The byte strings StaticPropAdditions.cpp feeds to CRC-32 to decide which
 * props may be merged (the grouping key), which merged group an already
 * compiled model stands for (the merge key) and which rescaled model a
 * single prop maps to (the rescale key), together with the averaging,
 * yaw snap and 1/100 quantisation of a merged group's members.
 */
module Grouping {
  import opened Common
  import opened StaticPropLump

  /** buildvars_t: what the compile step later needs from the model header. */
  datatype BuildVars = BuildVars(contents: int, surfaceProp: string, cdMats: seq<string>)

  /** The entry AddToTail() appends when the model fails to load. Its contents
      are indeterminate in the source and never read; the model fixes them to
      this blank value. */
  const BlankVars := BuildVars(0, "", [])

  /** Size of buildvars_t::surfaceProp. */
  const SURFACEPROP_LENGTH: nat := 32

  /** The prop flags that take part in the grouping key. */
  const RELEVANT_PROP_FLAGS: Flags := !(USE_LIGHTING_ORIGIN | FLAG_FADES)

  /** The surfaceProp array after zero-initialisation and V_strcpy: the name's
      bytes, then zeros, 32 bytes in all. */
  function SurfacePropImage(s: string): (r: seq<byte>)
    ensures |r| == SURFACEPROP_LENGTH
    ensures forall i :: 0 <= i < SURFACEPROP_LENGTH ==>
      r[i] == (if i < |s| then CharByte(s[i]) else 0)
  {
    (StrBytes(s) + seq(SURFACEPROP_LENGTH, _ => 0))[..SURFACEPROP_LENGTH]
  }

  /** The bytes ProcessBuffer reads for a list of material names, each with
      its separators turned into '/'. */
  function NameImages(names: seq<string>): (r: seq<seq<byte>>)
    ensures |r| == |names|
    ensures forall i :: 0 <= i < |names| ==> r[i] == StrBytes(FixSlashes(names[i]))
  {
    if names == [] then []
    else NameImages(names[..|names| - 1]) + [StrBytes(FixSlashes(names[|names| - 1]))]
  }

  /** Everything GetGroupingKeyAndSetNeededBuildVars feeds to the CRC, in
      order: cd material paths, texture names, model flags, the masked prop
      flags, contents, and the whole 32-byte surfaceprop array. */
  function GroupingKeyBytes(h: StudioFile, propFlags: Flags): seq<byte>
  {
    Flatten(NameImages(h.cdTextures)) + Flatten(NameImages(h.textures))
    + IntBytes(h.flags as int) + IntBytes((propFlags & RELEVANT_PROP_FLAGS) as int)
    + IntBytes(h.contents) + SurfacePropImage(h.surfaceProp)
  }

  /** The build variables recorded for a loaded model. */
  function VarsOf(h: StudioFile): BuildVars
  {
    BuildVars(h.contents, h.surfaceProp, FixedNames(h.cdTextures))
  }

  function FixedNames(names: seq<string>): (r: seq<string>)
    ensures |r| == |names|
    ensures forall i :: 0 <= i < |names| ==> r[i] == FixSlashes(names[i])
  {
    if names == [] then [] else FixedNames(names[..|names| - 1]) + [FixSlashes(names[|names| - 1])]
  }

  /** The grouping key of a build: its checksum, the build variables the
      call appends, and whether the model loaded. */
  function GroupingKey(build: PropBuild, readFile: string -> Option<StudioFile>, crc: Crc): (u32, BuildVars, bool)
  {
    match LoadStudioModel(readFile(build.modelName))
    case None => (0, BlankVars, false)
    case Some(h) => (crc(GroupingKeyBytes(h, build.flags)), VarsOf(h), true)
  }

  /** GetGroupingKeyAndSetNeededBuildVars: the key, and the build-variable
      vector after the one entry the call appends. */
  method GetGroupingKeyAndSetNeededBuildVars(build: PropBuild, vecBuildVars: seq<BuildVars>,
                                             readFile: string -> Option<StudioFile>, crc: Crc)
    returns (key: u32, newBuildVars: seq<BuildVars>, ok: bool)
    ensures newBuildVars == vecBuildVars + [GroupingKey(build, readFile, crc).1]
    ensures key == GroupingKey(build, readFile, crc).0 && ok == GroupingKey(build, readFile, crc).2
  {
    var file := LoadStudioModel(readFile(build.modelName));
    if file.None? {
      return 0, vecBuildVars + [BlankVars], false;
    }
    var h := file.value;
    var cdBytes, cdMats := ProcessNames(h.cdTextures);
    var texBytes, texNames := ProcessNames(h.textures);
    var vars := BuildVars(h.contents, h.surfaceProp, cdMats);
    newBuildVars := vecBuildVars + [vars];
    var processed := cdBytes + texBytes;
    processed := processed + IntBytes(h.flags as int);
    var maskedFlags := build.flags & RELEVANT_PROP_FLAGS;
    processed := processed + IntBytes(maskedFlags as int);
    processed := processed + IntBytes(h.contents);
    processed := processed + SurfacePropImage(h.surfaceProp);
    key := crc(processed);
    ok := true;
  }

  /** The per-name loops: each name's separators become '/', and its bytes
      are fed to the checksum and its fixed form recorded (the cd-material
      loop keeps the fixed names; the texture loop has no use for them). */
  method ProcessNames(names: seq<string>) returns (processed: seq<byte>, fixed: seq<string>)
    ensures processed == Flatten(NameImages(names))
    ensures fixed == FixedNames(names)
  {
    processed, fixed := [], [];
    for i := 0 to |names|
      invariant processed == Flatten(NameImages(names[..i]))
      invariant fixed == FixedNames(names[..i])
    {
      var name := FixSlashes(names[i]);
      fixed := fixed + [name];
      FlattenAppend(NameImages(names[..i]), StrBytes(name));
      processed := processed + StrBytes(name);
      assert names[..i + 1][..i] == names[..i];
    }
    assert names[..|names|] == names;
  }

  /** A failed load yields key 0 and a blank entry, keeping the build-variable
      vector index-aligned with the builds. */
  lemma GroupingKeyOfMissingModel(build: PropBuild, readFile: string -> Option<StudioFile>, crc: Crc)
    requires LoadStudioModel(readFile(build.modelName)).None?
    ensures GroupingKey(build, readFile, crc) == (0, BlankVars, false)
  {
  }

  /** The fade and lighting-origin bits do not take part in the key. */
  lemma GroupingKeyIgnoresFadeBits(a: PropBuild, b: PropBuild, readFile: string -> Option<StudioFile>, crc: Crc)
    requires a.modelName == b.modelName
    requires a.flags & RELEVANT_PROP_FLAGS == b.flags & RELEVANT_PROP_FLAGS
    ensures GroupingKey(a, readFile, crc) == GroupingKey(b, readFile, crc)
  {
  }

  /** Material names that differ only in separator style give the same key. */
  lemma GroupingKeyIgnoresSlashStyle(h: StudioFile, g: StudioFile, flags: Flags)
    requires |h.cdTextures| == |g.cdTextures| && |h.textures| == |g.textures|
    requires forall i :: 0 <= i < |h.cdTextures| ==> FixSlashes(h.cdTextures[i]) == FixSlashes(g.cdTextures[i])
    requires forall i :: 0 <= i < |h.textures| ==> FixSlashes(h.textures[i]) == FixSlashes(g.textures[i])
    requires h.flags == g.flags && h.contents == g.contents && h.surfaceProp == g.surfaceProp
    ensures GroupingKeyBytes(h, flags) == GroupingKeyBytes(g, flags)
  {
    assert NameImages(h.cdTextures) == NameImages(g.cdTextures);
    assert NameImages(h.textures) == NameImages(g.textures);
  }

  /** The fixed-width tail of the key: the last 44 bytes hold, in order, the
      model flags, the masked prop flags, the contents and the surfaceprop
      array (each word can be read back with IntBytesRoundTrip). */
  lemma GroupingKeyTail(h: StudioFile, flags: Flags)
    ensures var b := GroupingKeyBytes(h, flags);
      var n := |b|;
      && n >= 44
      && b[n - 44..n - 40] == IntBytes(h.flags as int)
      && b[n - 40..n - 36] == IntBytes((flags & RELEVANT_PROP_FLAGS) as int)
      && b[n - 36..n - 32] == IntBytes(h.contents)
      && b[n - 32..] == SurfacePropImage(h.surfaceProp)
  {
    TailSections(Flatten(NameImages(h.cdTextures)) + Flatten(NameImages(h.textures)),
      IntBytes(h.flags as int), IntBytes((flags & RELEVANT_PROP_FLAGS) as int),
      IntBytes(h.contents), SurfacePropImage(h.surfaceProp));
  }

  lemma TailSections(head: seq<byte>, f1: seq<byte>, f2: seq<byte>, f3: seq<byte>, sp: seq<byte>)
    requires |f1| == 4 && |f2| == 4 && |f3| == 4 && |sp| == 32
    ensures var b := head + f1 + f2 + f3 + sp;
      var n := |b|;
      && n >= 44 && b[n - 44..n - 40] == f1 && b[n - 40..n - 36] == f2
      && b[n - 36..n - 32] == f3 && b[n - 32..] == sp
  {
  }

  /** The build variables keep the slash-fixed cd material paths in order. */
  lemma GroupingVarsOfLoadedModel(build: PropBuild, readFile: string -> Option<StudioFile>, crc: Crc)
    requires LoadStudioModel(readFile(build.modelName)).Some?
    ensures var h := readFile(build.modelName).value;
      var v := GroupingKey(build, readFile, crc).1;
      && v.contents == h.contents && v.surfaceProp == h.surfaceProp
      && |v.cdMats| == |h.cdTextures|
      && (forall i :: 0 <= i < |h.cdTextures| ==> v.cdMats[i] == FixSlashes(h.cdTextures[i]) && '\\' !in v.cdMats[i])
  {
  }

  // ---------------------------------------------------------------------
  // Rescaled single props
  // ---------------------------------------------------------------------

  /** fabs(scale - 1) < 0.0001: the prop is kept at its own scale. */
  predicate UnitScale(scale: real)
  {
    -0.0001 < scale - 1.0 < 0.0001
  }

  /** The rescale key: model name, skin, the scale's four IEEE bytes (supplied
      by floatBits) and solid. */
  function RescaleKeyBytes(build: PropBuild, floatBits: real -> seq<byte>): seq<byte>
  {
    StrBytes(build.modelName) + IntBytes(build.skin) + floatBits(build.scale) + IntBytes(build.solid)
  }

  lemma RescaleKeySeparatesScales(a: PropBuild, b: PropBuild, floatBits: real -> seq<byte>)
    requires a.modelName == b.modelName && a.skin == b.skin && a.solid == b.solid
    requires |floatBits(a.scale)| == 4 && |floatBits(b.scale)| == 4
    ensures RescaleKeyBytes(a, floatBits) == RescaleKeyBytes(b, floatBits) <==> floatBits(a.scale) == floatBits(b.scale)
  {
    var n := |a.modelName| + 4;
    if RescaleKeyBytes(a, floatBits) == RescaleKeyBytes(b, floatBits) {
      assert RescaleKeyBytes(a, floatBits)[n..n + 4] == floatBits(a.scale);
      assert RescaleKeyBytes(b, floatBits)[n..n + 4] == floatBits(b.scale);
    }
  }

  // ---------------------------------------------------------------------
  // Merged groups
  // ---------------------------------------------------------------------

  /** PROPPOS_ROUND_NUM: offsets and angles are kept to 1/100. */
  const PROPPOS_ROUND_NUM: real := 100.0

  function Quantize(x: real): int
  {
    RoundInt(x * PROPPOS_ROUND_NUM)
  }

  /** The quantised value is within half a step of the original. */
  lemma QuantizeError(x: real)
    ensures var q := Quantize(x) as real / PROPPOS_ROUND_NUM;
      q - 0.005 <= x < q + 0.005
  {
  }

  /** Quantising a value already on the 1/100 grid gives it back. */
  lemma QuantizeOnGrid(n: int)
    ensures Quantize(n as real / PROPPOS_ROUND_NUM) == n
  {
    assert (n as real / PROPPOS_ROUND_NUM) * PROPPOS_ROUND_NUM == n as real;
    RoundIntOfInt(n);
  }

  /** The group's yaw, RoundInt(avgYaw / 15) * 15. */
  function SnapYaw(avgYaw: real): real
  {
    (RoundInt(avgYaw / 15.0) * 15) as real
  }

  /** The group's yaw is a multiple of 15 degrees within 7.5 of the average. */
  lemma SnapYawProperties(avgYaw: real)
    ensures (SnapYaw(avgYaw) / 15.0).Floor as real == SnapYaw(avgYaw) / 15.0
    ensures SnapYaw(avgYaw) - 7.5 <= avgYaw < SnapYaw(avgYaw) + 7.5
  {
    var k := RoundInt(avgYaw / 15.0);
    assert k as real - 0.5 <= avgYaw / 15.0 < k as real + 0.5;
  }

  /** The angles the merged prop is placed with. */
  function GroupAngles(yaw: real): Angles
  {
    Angles(0.0, yaw - 90.0, 0.0)
  }

  /** Where one member sits inside the merged model. */
  datatype MemberPlace = MemberPlace(originDiv: seq<int>, angleDiv: seq<int>)

  function Vec3Of(s: seq<real>): (v: Vec3)
    requires |s| == 3
  {
    Vec3(s[0], s[1], s[2])
  }

  function QuantizeAll(xs: seq<real>): (r: seq<int>)
    ensures |r| == |xs|
    ensures forall i :: 0 <= i < |xs| ==> r[i] == Quantize(xs[i])
  {
    seq(|xs|, i requires 0 <= i < |xs| => Quantize(xs[i]))
  }

  /** Every quantised entry is within half a step of its input. */
  lemma QuantizeAllError(xs: seq<real>)
    ensures forall i :: 0 <= i < |xs| ==>
      QuantizeAll(xs)[i] as real / PROPPOS_ROUND_NUM - 0.005 <= xs[i] < QuantizeAll(xs)[i] as real / PROPPOS_ROUND_NUM + 0.005
  {
    forall i | 0 <= i < |xs| {
      QuantizeError(xs[i]);
    }
  }

  /** The member's offset rotated into the group frame and its angles with the
      group yaw removed, both quantised to 1/100. */
  function Place(build: PropBuild, avgPos: Vec3, yaw: real, angleMatrix: AngleMatrix): (m: MemberPlace)
    ensures |m.originDiv| == 3 && |m.angleDiv| == 3
  {
    var o := VectorRotate(Sub3(build.origin, avgPos), angleMatrix(Angles(0.0, -yaw, 0.0)));
    var a := build.angles;
    MemberPlace(QuantizeAll([o.x, o.y, o.z]), QuantizeAll([a.pitch, a.yaw - yaw, a.roll]))
  }

  /** The origin a member is combined at: the quantised offset. */
  function PlacedOrigin(m: MemberPlace): Vec3
    requires |m.originDiv| == 3
  {
    Vec3(m.originDiv[0] as real / PROPPOS_ROUND_NUM, m.originDiv[1] as real / PROPPOS_ROUND_NUM,
      m.originDiv[2] as real / PROPPOS_ROUND_NUM)
  }

  /** The angles a member is combined with: the quantised angles. */
  function PlacedAngles(m: MemberPlace): Angles
    requires |m.angleDiv| == 3
  {
    Angles(m.angleDiv[0] as real / PROPPOS_ROUND_NUM, m.angleDiv[1] as real / PROPPOS_ROUND_NUM,
      m.angleDiv[2] as real / PROPPOS_ROUND_NUM)
  }

  /** The placement step of the key and combine loops: the member's offset is
      rotated by yawRot, its yaw reduced by the group's, and each of the three
      axes rounded into the int arrays and written back as the float the
      mesh is combined at. */
  method QuantizePlacement(build: PropBuild, avgPos: Vec3, avgYaw: real, yawRot: Matrix34, ghost angleMatrix: AngleMatrix)
    returns (place: MemberPlace, additionOrigin: Vec3, additionAngle: Angles)
    requires yawRot == angleMatrix(Angles(0.0, -avgYaw, 0.0))
    ensures place == Place(build, avgPos, avgYaw, angleMatrix)
    ensures additionOrigin == PlacedOrigin(place) && additionAngle == PlacedAngles(place)
  {
    var o := VectorRotate(Sub3(build.origin, avgPos), yawRot);
    var origin := [o.x, o.y, o.z];
    var angle := [build.angles.pitch, build.angles.yaw - avgYaw, build.angles.roll];
    ghost var origin0, angle0 := origin, angle;
    var originDiv := new int[3];
    var angleDiv := new int[3];
    for i := 0 to 3
      invariant |origin| == 3 && |angle| == 3
      invariant forall k :: i <= k < 3 ==> origin[k] == origin0[k] && angle[k] == angle0[k]
      invariant forall k :: 0 <= k < i ==> originDiv[k] == Quantize(origin0[k]) && angleDiv[k] == Quantize(angle0[k])
      invariant forall k :: 0 <= k < i ==>
        origin[k] == originDiv[k] as real / PROPPOS_ROUND_NUM && angle[k] == angleDiv[k] as real / PROPPOS_ROUND_NUM
    {
      originDiv[i] := Quantize(origin[i]);
      angleDiv[i] := Quantize(angle[i]);
      origin := origin[i := originDiv[i] as real / PROPPOS_ROUND_NUM];
      angle := angle[i := angleDiv[i] as real / PROPPOS_ROUND_NUM];
    }
    place := MemberPlace(originDiv[..], angleDiv[..]);
    assert place.originDiv == QuantizeAll(origin0) && place.angleDiv == QuantizeAll(angle0);
    additionOrigin := Vec3Of(origin);
    additionAngle := Angles(angle[0], angle[1], angle[2]);
  }

  /** Three ints, as the int[3] arrays are fed. */
  function IntsBytes(xs: seq<int>): (r: seq<byte>)
    requires |xs| == 3
    ensures |r| == 12
  {
    IntBytes(xs[0]) + IntBytes(xs[1]) + IntBytes(xs[2])
  }

  /** One member's contribution to the merge key. The float fed between skin
      and solid is the local constant 1, whatever the member's own scale. */
  function MemberKeyBytes(build: PropBuild, m: MemberPlace): seq<byte>
    requires |m.originDiv| == 3 && |m.angleDiv| == 3
  {
    IntsBytes(m.originDiv) + IntsBytes(m.angleDiv) + StrBytes(build.modelName)
    + IntBytes(build.skin) + OneFloatBytes + IntBytes(build.solid)
  }

  /** The integers the merge key is fed are exactly those the member is
      placed with. */
  lemma MemberKeyMatchesPlacement(build: PropBuild, m: MemberPlace)
    requires |m.originDiv| == 3 && |m.angleDiv| == 3
    ensures var b := MemberKeyBytes(build, m);
      && b[..12] == IntsBytes(m.originDiv) && b[12..24] == IntsBytes(m.angleDiv)
      && PlacedOrigin(m).x * PROPPOS_ROUND_NUM == m.originDiv[0] as real
      && PlacedAngles(m).yaw * PROPPOS_ROUND_NUM == m.angleDiv[1] as real
  {
    var b := MemberKeyBytes(build, m);
    assert b == IntsBytes(m.originDiv) + IntsBytes(m.angleDiv)
      + (StrBytes(build.modelName) + IntBytes(build.skin) + OneFloatBytes + IntBytes(build.solid));
  }

  /** The merge key ignores the members' scales: two members that agree on
      everything but scale contribute the same bytes. */
  lemma MemberKeyIgnoresScale(a: PropBuild, m: MemberPlace, s: real)
    requires |m.originDiv| == 3 && |m.angleDiv| == 3
    ensures MemberKeyBytes(a.(scale := s), m) == MemberKeyBytes(a, m)
  {
  }

  /** The constant 1.0f sits right after the name and skin. */
  lemma MemberKeyFloatIsOne(build: PropBuild, m: MemberPlace)
    requires |m.originDiv| == 3 && |m.angleDiv| == 3
    ensures var n := 24 + |build.modelName| + 4;
      MemberKeyBytes(build, m)[n..n + 4] == OneFloatBytes
  {
    var n := 24 + |build.modelName| + 4;
    var b := MemberKeyBytes(build, m);
    assert b == (IntsBytes(m.originDiv) + IntsBytes(m.angleDiv) + StrBytes(build.modelName)
      + IntBytes(build.skin)) + OneFloatBytes + IntBytes(build.solid);
  }
}
