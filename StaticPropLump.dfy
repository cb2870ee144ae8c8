/**
 * The static-prop game lump of staticprop.cpp: the model dictionary, the
 * prop records and the leaf lists they index, the memoised collision-model
 * lookup, lighting origins, and the byte image SetLumpData writes.
 *
 * The three global CUtlVectors become fields of the class PropLumps; the
 * file system, the studio-header decoding and the physics library are
 * supplied as the function-valued fields of LumpWorld.
 */
module StaticPropLump {
  import opened Common

  /** Static-prop flag bits (gamebspfile.h, not part of this model). */
  type Flags = bv32

  const FLAG_FADES: Flags := 0x1
  const USE_LIGHTING_ORIGIN: Flags := 0x2
  const IGNORE_NORMALS: Flags := 0x8
  const NO_SHADOW: Flags := 0x10
  const SCREEN_SPACE_FADE: Flags := 0x20
  const NO_PER_VERTEX_LIGHTING: Flags := 0x40
  const NO_SELF_SHADOWING: Flags := 0x80
  const NO_PER_TEXEL_LIGHTING: Flags := 0x100

  /** Length of a dictionary entry's name field. */
  const DETAIL_NAME_LENGTH: nat := 128

  /** studio.h constants (not part of this model). */
  const STUDIO_VERSION: int := 48
  const STUDIOHDR_FLAGS_STATIC_PROP: bv32 := 0x10

  /** StaticPropBuild_t: everything the entity pass collects about one prop. */
  datatype PropBuild = PropBuild(
    modelName: string,
    lightingOrigin: string,
    origin: Vec3,
    angles: Angles,
    solid: int,
    skin: int,
    flags: Flags,
    fadeMinDist: real,
    fadeMaxDist: real,
    fadesOut: bool,
    forcedFadeScale: real,
    minDXLevel: u16,
    maxDXLevel: u16,
    lightmapResX: int,
    lightmapResY: int,
    scale: real)

  /** StaticPropLump_t. lightingOrigin is None where the source leaves the
      field unwritten. */
  datatype PropLump = PropLump(
    propType: nat,
    origin: Vec3,
    angles: Angles,
    firstLeaf: nat,
    leafCount: nat,
    solid: int,
    skin: int,
    flags: Flags,
    fadeMinDist: real,
    fadeMaxDist: real,
    forcedFadeScale: real,
    minDXLevel: u16,
    maxDXLevel: u16,
    lightingOrigin: Option<Vec3>,
    lightmapResX: int,
    lightmapResY: int)

  /** An info_lighting entity: its targetname and origin. */
  datatype LightingEntity = LightingEntity(targetName: string, origin: Vec3)

  /** What a .mdl file's header says, once read and brought to the current
      version. propData is Some(allowstatic) when the model's key values
      hold a prop_data section (allowstatic defaulting to 0). */
  datatype StudioFile = StudioFile(
    ident: string,
    version: int,
    flags: bv32,
    propData: Option<int>,
    contents: int,
    surfaceProp: string,
    cdTextures: seq<string>,
    textures: seq<string>)

  /** The collaborators the lump pass calls: reading a model file, building
      its convex hull, and the BSP leaves a hull placed at an origin and
      angles touches. A hull is named by the model name it was built from. */
  datatype LumpWorld = LumpWorld(
    readFile: string -> Option<StudioFile>,
    convexHull: string -> bool,
    leavesOf: (string, Vec3, Angles) -> seq<u16>)

  // ---------------------------------------------------------------------
  // Model loading
  // ---------------------------------------------------------------------

  datatype StaticPropCheck = Valid | NotMarkedStaticProp | Dynamic

  /** IsStaticProp: the header must carry the static-prop flag, and a
      prop_data section must allow static use. */
  function IsStaticProp(h: StudioFile): (r: StaticPropCheck)
    ensures r == NotMarkedStaticProp <==> h.flags & STUDIOHDR_FLAGS_STATIC_PROP == 0
    ensures r == Valid <==>
      h.flags & STUDIOHDR_FLAGS_STATIC_PROP != 0 && (h.propData.None? || h.propData.value != 0)
  {
    if h.flags & STUDIOHDR_FLAGS_STATIC_PROP == 0 then NotMarkedStaticProp
    else if h.propData.Some? && h.propData.value == 0 then Dynamic
    else Valid
  }

  /** LoadStudioModel: the file must exist, start with IDST or IDAG, have the
      current version and pass IsStaticProp. */
  function LoadStudioModel(file: Option<StudioFile>): (r: Option<StudioFile>)
    ensures r.Some? ==> file == r
    ensures r.Some? <==>
      file.Some? && (file.value.ident == "IDST" || file.value.ident == "IDAG")
      && file.value.version == STUDIO_VERSION && IsStaticProp(file.value) == Valid
  {
    if file.None? then None
    else if file.value.ident != "IDST" && file.value.ident != "IDAG" then None
    else if file.value.version != STUDIO_VERSION then None
    else if IsStaticProp(file.value) != Valid then None
    else file
  }

  // ---------------------------------------------------------------------
  // Dictionary
  // ---------------------------------------------------------------------

  /** StaticPropDictLump_t after strncpy into its 128-byte name: the name's
      bytes, cut at 128 or padded with zeros. */
  function DictName(name: string): (r: seq<byte>)
    ensures |r| == DETAIL_NAME_LENGTH
    ensures forall i :: 0 <= i < DETAIL_NAME_LENGTH ==>
      r[i] == (if i < |name| then CharByte(name[i]) else 0)
  {
    (StrBytes(name) + seq(DETAIL_NAME_LENGTH, _ => 0))[..DETAIL_NAME_LENGTH]
  }

  predicate NoDuplicates<T(==)>(s: seq<T>)
  {
    forall i, j :: 0 <= i < j < |s| ==> s[i] != s[j]
  }

  /** The backward memcmp search over dict[..i]: the last index holding the
      entry, or -1. */
  function FindFromEnd(dict: seq<seq<byte>>, entry: seq<byte>, i: nat): (r: int)
    requires i <= |dict|
    ensures -1 <= r < i
    ensures r == -1 <==> entry !in dict[..i]
    ensures r >= 0 ==> dict[r] == entry && entry !in dict[r + 1..i]
    decreases i
  {
    if i == 0 then -1
    else if dict[i - 1] == entry then
      assert dict[i..i] == [];
      i - 1
    else
      var r := FindFromEnd(dict, entry, i - 1);
      assert dict[..i] == dict[..i - 1] + [dict[i - 1]];
      assert r >= 0 ==> dict[r + 1..i] == dict[r + 1..i - 1] + [dict[i - 1]];
      r
  }

  /** AddStaticPropDictLump on a dictionary value: the new dictionary and
      the index returned. */
  function DictAdd(dict: seq<seq<byte>>, name: string): (r: (seq<seq<byte>>, nat))
    ensures r.1 < |r.0| && r.0[r.1] == DictName(name)
    ensures DictName(name) in dict ==> r.0 == dict
    ensures DictName(name) !in dict ==> r.0 == dict + [DictName(name)] && r.1 == |dict|
  {
    var e := DictName(name);
    var k := FindFromEnd(dict, e, |dict|);
    assert dict[..|dict|] == dict;
    if k >= 0 then (dict, k) else (dict + [e], |dict|)
  }

  /** The dictionary never gains a duplicate, and every entry stays 128 bytes. */
  lemma DictAddKeepsUnique(dict: seq<seq<byte>>, name: string)
    requires NoDuplicates(dict) && Uniform(dict, DETAIL_NAME_LENGTH)
    ensures NoDuplicates(DictAdd(dict, name).0)
    ensures Uniform(DictAdd(dict, name).0, DETAIL_NAME_LENGTH)
  {
    var d := DictAdd(dict, name).0;
    if DictName(name) !in dict {
      forall i, j | 0 <= i < j < |d|
        ensures d[i] != d[j]
      {
        if j == |dict| {
          assert d[i] == dict[i];
        }
      }
    }
  }

  /** Registering the same model again finds its entry and changes nothing. */
  lemma DictAddIdempotent(dict: seq<seq<byte>>, name: string)
    requires NoDuplicates(dict)
    ensures var (d, t) := DictAdd(dict, name); DictAdd(d, name) == (d, t)
  {
    var (d, t) := DictAdd(dict, name);
    var (d2, t2) := DictAdd(d, name);
    assert d2 == d;
    if DictName(name) !in dict {
      assert d[t2] == d[t];
    } else {
      assert d[t2] == dict[t];
    }
  }

  /** Two names share a dictionary entry exactly when their padded images
      agree; in particular names of at most 128 characters share one only
      when equal. */
  lemma DictNameInjective(a: string, b: string)
    requires |a| <= DETAIL_NAME_LENGTH && |b| <= DETAIL_NAME_LENGTH
    requires forall i :: 0 <= i < |a| ==> 0 < a[i] as int < 256
    requires forall i :: 0 <= i < |b| ==> 0 < b[i] as int < 256
    ensures DictName(a) == DictName(b) <==> a == b
  {
    if a != b {
      var k: nat;
      if |a| < |b| {
        k := |a|;
      } else if |b| < |a| {
        k := |b|;
      } else {
        k :| k < |a| && a[k] != b[k];
      }
      assert DictName(a)[k] != DictName(b)[k];
    }
  }

  // ---------------------------------------------------------------------
  // Collision-model cache
  // ---------------------------------------------------------------------

  /** The cache key: the name lower-cased with every '\' turned into '/'. */
  function CollisionKey(name: string): (k: string)
    ensures |k| == |name|
    ensures forall i :: 0 <= i < |name| ==>
      k[i] == (if name[i] == '\\' then '/' else ToLowerChar(name[i]))
  {
    FixSlashes(ToLower(name))
  }

  /** The hull GetCollisionModel returns for a name, given the cache it
      starts from: a cached entry wins; otherwise the model is loaded under
      its original name, and a failed load or a failed hull give None. */
  function CollisionLookup(cache: map<string, Option<string>>, name: string, w: LumpWorld): Option<string>
  {
    var key := CollisionKey(name);
    if key in cache then cache[key]
    else if LoadStudioModel(w.readFile(name)).None? then None
    else if w.convexHull(name) then Some(name)
    else None
  }

  /** Once a name has been looked up, every name with the same key gets the
      same answer without consulting the model file again, whatever the
      file system now says. */
  lemma CollisionMemo(cache: map<string, Option<string>>, a: string, b: string, w: LumpWorld, w2: LumpWorld)
    requires CollisionKey(a) == CollisionKey(b)
    ensures var c := cache[CollisionKey(a) := CollisionLookup(cache, a, w)];
      CollisionLookup(c, b, w2) == CollisionLookup(cache, a, w)
  {
  }

  /** Names that differ only in letter case and separator style share a key. */
  lemma CollisionKeyNormalises(a: string, b: string)
    requires EqualsIgnoreCase(FixSlashes(a), FixSlashes(b))
    ensures CollisionKey(a) == CollisionKey(b)
  {
    var la, lb := ToLower(FixSlashes(a)), ToLower(FixSlashes(b));
    assert |a| == |la| == |lb| == |b|;
    forall i | 0 <= i < |a|
      ensures CollisionKey(a)[i] == CollisionKey(b)[i]
    {
      assert la[i] == lb[i];
    }
  }

  /** strchr: the first index holding c. */
  function FirstIndex(s: string, c: char): (r: nat)
    requires c in s
    ensures r < |s| && s[r] == c && c !in s[..r]
  {
    if s[0] == c then 0
    else
      var r := FirstIndex(s[1..], c) + 1;
      assert s[..r] == [s[0]] + s[1..][..r - 1];
      r
  }

  // ---------------------------------------------------------------------
  // Lighting origins and prop records
  // ---------------------------------------------------------------------

  /** The origin ComputeLightingOrigin finds: the last info_lighting entity
      whose targetname equals the target. */
  function LightingOriginOf(infos: seq<LightingEntity>, target: string): Option<Vec3>
  {
    if infos == [] then None
    else if infos[|infos| - 1].targetName == target then Some(infos[|infos| - 1].origin)
    else LightingOriginOf(infos[..|infos| - 1], target)
  }

  /** The last matching entity wins. */
  lemma {:induction false} LastLightingMatchWins(infos: seq<LightingEntity>, target: string, i: nat)
    requires i < |infos| && infos[i].targetName == target
    requires forall j :: i < j < |infos| ==> infos[j].targetName != target
    ensures LightingOriginOf(infos, target) == Some(infos[i].origin)
    decreases |infos|
  {
    if i < |infos| - 1 {
      var init := infos[..|infos| - 1];
      LastLightingMatchWins(init, target, i);
    }
  }

  /** No matching entity, no lighting origin. */
  lemma {:induction false} NoLightingMatch(infos: seq<LightingEntity>, target: string)
    requires forall j :: 0 <= j < |infos| ==> infos[j].targetName != target
    ensures LightingOriginOf(infos, target) == None
    decreases |infos|
  {
    if infos != [] {
      NoLightingMatch(infos[..|infos| - 1], target);
    }
  }

  /** The lighting origin AddStaticPropToLump records: only a non-empty
      lightingorigin name is looked up. */
  function LightingFor(infos: seq<LightingEntity>, build: PropBuild): Option<Vec3>
  {
    if build.lightingOrigin != "" then LightingOriginOf(infos, build.lightingOrigin) else None
  }

  /** The prop record's flags: FADES added when the prop fades, and
      USE_LIGHTING_ORIGIN when a lighting origin was found. */
  function PropFlags(build: PropBuild, lit: bool): Flags
  {
    var f := if build.fadesOut then build.flags | FLAG_FADES else build.flags;
    if lit then f | USE_LIGHTING_ORIGIN else f
  }

  lemma PropFlagsBits(build: PropBuild, lit: bool)
    ensures PropFlags(build, lit) & FLAG_FADES != 0 <==> build.fadesOut || build.flags & FLAG_FADES != 0
    ensures PropFlags(build, lit) & USE_LIGHTING_ORIGIN != 0 <==>
      lit || build.flags & USE_LIGHTING_ORIGIN != 0
    ensures PropFlags(build, lit) & !(FLAG_FADES | USE_LIGHTING_ORIGIN) ==
      build.flags & !(FLAG_FADES | USE_LIGHTING_ORIGIN)
  {
  }

  /** An empty lightingorigin name never sets USE_LIGHTING_ORIGIN, even when
      some info_lighting entity has an empty targetname. */
  lemma EmptyLightingNameUnlit(infos: seq<LightingEntity>, build: PropBuild)
    requires build.lightingOrigin == ""
    requires build.flags & USE_LIGHTING_ORIGIN == 0
    ensures PropFlags(build, LightingFor(infos, build).Some?) & USE_LIGHTING_ORIGIN == 0
  {
    PropFlagsBits(build, false);
  }

  /** The StaticPropLump_t written for a build. */
  function PropRecord(build: PropBuild, propType: nat, firstLeaf: nat, leafCount: nat, lighting: Option<Vec3>): PropLump
  {
    PropLump(propType, build.origin, build.angles, firstLeaf, leafCount, build.solid, build.skin,
      PropFlags(build, lighting.Some?), build.fadeMinDist, build.fadeMaxDist, build.forcedFadeScale,
      build.minDXLevel, build.maxDXLevel, lighting, build.lightmapResX, build.lightmapResY)
  }

  // ---------------------------------------------------------------------
  // The three lumps
  // ---------------------------------------------------------------------

  datatype Lumps = Lumps(dict: seq<seq<byte>>, props: seq<PropLump>, leaves: seq<u16>)

  const NoLumps := Lumps([], [], [])

  /** Number of leaves the props claim. */
  function LeafTotal(props: seq<PropLump>): nat
  {
    if props == [] then 0 else LeafTotal(props[..|props| - 1]) + props[|props| - 1].leafCount
  }

  /** The lump invariant: a duplicate-free dictionary of 128-byte names that
      every prop indexes, and leaf ranges laid end to end, each non-empty,
      covering the leaf lump exactly. */
  predicate LumpsValid(l: Lumps)
  {
    && NoDuplicates(l.dict)
    && Uniform(l.dict, DETAIL_NAME_LENGTH)
    && (forall i :: 0 <= i < |l.props| ==>
          l.props[i].propType < |l.dict| && l.props[i].leafCount > 0
          && l.props[i].firstLeaf == LeafTotal(l.props[..i]))
    && LeafTotal(l.props) == |l.leaves|
  }

  /** AddStaticPropToLump on lump values, given the hull the collision
      lookup produced. */
  function Register(l: Lumps, build: PropBuild, hull: Option<string>, infos: seq<LightingEntity>, w: LumpWorld): Lumps
  {
    if hull.None? then l
    else
      var leafList := w.leavesOf(hull.value, build.origin, build.angles);
      if leafList == [] then l
      else
        var (d, t) := DictAdd(l.dict, build.modelName);
        Lumps(d, l.props + [PropRecord(build, t, |l.leaves|, |leafList|, LightingFor(infos, build))],
          l.leaves + leafList)
  }

  /** No hull, or a hull that touches no leaf: nothing is appended anywhere. */
  lemma RegisterNothing(l: Lumps, build: PropBuild, hull: Option<string>, infos: seq<LightingEntity>, w: LumpWorld)
    requires hull.None? || w.leavesOf(hull.value, build.origin, build.angles) == []
    ensures Register(l, build, hull, infos, w) == l
  {
  }

  /** Otherwise exactly one prop is appended; it names the build's
      dictionary entry, its range starts at the prior leaf count and spans
      exactly the new leaves, which are appended in order. */
  lemma RegisterAppends(l: Lumps, build: PropBuild, hull: Option<string>, infos: seq<LightingEntity>, w: LumpWorld)
    requires hull.Some?
    requires w.leavesOf(hull.value, build.origin, build.angles) != []
    ensures var r := Register(l, build, hull, infos, w);
      var leafList := w.leavesOf(hull.value, build.origin, build.angles);
      var p := r.props[|l.props|];
      && |r.props| == |l.props| + 1 && r.props[..|l.props|] == l.props
      && r.leaves == l.leaves + leafList
      && p.firstLeaf == |l.leaves| && p.leafCount == |leafList|
      && r.leaves[p.firstLeaf..p.firstLeaf + p.leafCount] == leafList
      && p.propType < |r.dict| && r.dict[p.propType] == DictName(build.modelName)
      && p.origin == build.origin && p.angles == build.angles
      && p.lightingOrigin == LightingFor(infos, build)
  {
    var r := Register(l, build, hull, infos, w);
    var leafList := w.leavesOf(hull.value, build.origin, build.angles);
    assert r.props[..|l.props|] == l.props;
    assert r.leaves[|l.leaves|..|l.leaves| + |leafList|] == leafList;
  }

  lemma RegisterKeepsValid(l: Lumps, build: PropBuild, hull: Option<string>, infos: seq<LightingEntity>, w: LumpWorld)
    requires LumpsValid(l)
    ensures LumpsValid(Register(l, build, hull, infos, w))
  {
    if hull.Some? && w.leavesOf(hull.value, build.origin, build.angles) != [] {
      var leafList := w.leavesOf(hull.value, build.origin, build.angles);
      var (d, t) := DictAdd(l.dict, build.modelName);
      DictAddKeepsUnique(l.dict, build.modelName);
      AppendKeepsValid(l, d, PropRecord(build, t, |l.leaves|, |leafList|, LightingFor(infos, build)), leafList);
    }
  }

  /** Appending one prop whose range starts at the leaf count and spans the
      appended leaves keeps the lump invariant. */
  lemma AppendKeepsValid(l: Lumps, d: seq<seq<byte>>, rec: PropLump, leafList: seq<u16>)
    requires LumpsValid(l)
    requires NoDuplicates(d) && Uniform(d, DETAIL_NAME_LENGTH) && |l.dict| <= |d|
    requires rec.propType < |d| && rec.leafCount == |leafList| > 0 && rec.firstLeaf == |l.leaves|
    ensures LumpsValid(Lumps(d, l.props + [rec], l.leaves + leafList))
  {
    var ps := l.props + [rec];
    assert ps[..|l.props|] == l.props;
    forall i | 0 <= i < |ps|
      ensures ps[i].propType < |d| && ps[i].leafCount > 0 && ps[i].firstLeaf == LeafTotal(ps[..i])
    {
      if i < |l.props| {
        assert ps[..i] == l.props[..i];
      }
    }
  }

  lemma {:induction false} LeafTotalPrefix(props: seq<PropLump>, i: nat, j: nat)
    requires i <= j <= |props|
    ensures LeafTotal(props[..i]) <= LeafTotal(props[..j])
    decreases j - i
  {
    if i < j {
      LeafTotalPrefix(props, i, j - 1);
      assert props[..j][..j - 1] == props[..j - 1];
    }
  }

  lemma LeafTotalStep(props: seq<PropLump>, i: nat)
    requires i < |props|
    ensures LeafTotal(props[..i + 1]) == LeafTotal(props[..i]) + props[i].leafCount
  {
    assert props[..i + 1][..i] == props[..i];
  }

  /** Leaf ranges are disjoint, ordered, and inside the leaf lump. */
  lemma LeafRangesDisjoint(l: Lumps, i: nat, j: nat)
    requires LumpsValid(l)
    requires i < j < |l.props|
    ensures l.props[i].firstLeaf + l.props[i].leafCount <= l.props[j].firstLeaf
    ensures l.props[j].firstLeaf + l.props[j].leafCount <= |l.leaves|
  {
    var p := l.props;
    assert p[i].firstLeaf == LeafTotal(p[..i]);
    assert p[j].firstLeaf == LeafTotal(p[..j]);
    RangesFromTotals(p, i, j);
  }

  lemma RangesFromTotals(p: seq<PropLump>, i: nat, j: nat)
    requires i < j < |p|
    ensures LeafTotal(p[..i]) + p[i].leafCount <= LeafTotal(p[..j])
    ensures LeafTotal(p[..j]) + p[j].leafCount <= LeafTotal(p)
  {
    LeafTotalStep(p, i);
    LeafTotalPrefix(p, i + 1, j);
    RangeInside(p, j);
  }

  lemma RangeInside(p: seq<PropLump>, j: nat)
    requires j < |p|
    ensures LeafTotal(p[..j]) + p[j].leafCount <= LeafTotal(p)
  {
    LeafTotalStep(p, j);
    LeafTotalPrefix(p, j + 1, |p|);
    assert p[..|p|] == p;
  }

  // ---------------------------------------------------------------------
  // The lump image
  // ---------------------------------------------------------------------

  /** A StaticPropLeafLump_t: one little-endian unsigned short. */
  function LeafBytes(leaf: u16): (r: seq<byte>)
    ensures |r| == 2 && r[0] as int + 256 * r[1] as int == leaf
  {
    [leaf % 256, leaf / 256]
  }

  function LeafImages(leaves: seq<u16>): (r: seq<seq<byte>>)
    ensures |r| == |leaves| && Uniform(r, 2)
    ensures forall i :: 0 <= i < |leaves| ==> r[i] == LeafBytes(leaves[i])
  {
    seq(|leaves|, i requires 0 <= i < |leaves| => LeafBytes(leaves[i]))
  }

  /** The props' images; the StaticPropLump_t layout is supplied by the
      caller as encodeProp. */
  function PropImages(props: seq<PropLump>, encodeProp: PropLump -> seq<byte>): (r: seq<seq<byte>>)
    ensures |r| == |props|
    ensures forall i :: 0 <= i < |props| ==> r[i] == encodeProp(props[i])
  {
    seq(|props|, i requires 0 <= i < |props| => encodeProp(props[i]))
  }

  /** SetLumpData: dictionary count and entries, leaf count and leaves, prop
      count and props. */
  function LumpImage(l: Lumps, encodeProp: PropLump -> seq<byte>): seq<byte>
  {
    IntBytes(|l.dict|) + Flatten(l.dict)
    + IntBytes(|l.leaves|) + Flatten(LeafImages(l.leaves))
    + IntBytes(|l.props|) + Flatten(PropImages(l.props, encodeProp))
  }

  /** The size SetLumpData allocates accounts for every byte it writes. */
  lemma LumpImageSize(l: Lumps, encodeProp: PropLump -> seq<byte>, propSize: nat)
    requires Uniform(l.dict, DETAIL_NAME_LENGTH)
    requires forall p :: |encodeProp(p)| == propSize
    ensures |LumpImage(l, encodeProp)| ==
      DETAIL_NAME_LENGTH * |l.dict| + propSize * |l.props| + 2 * |l.leaves| + 3 * 4
  {
    FlattenUniform(l.dict, DETAIL_NAME_LENGTH);
    FlattenUniform(LeafImages(l.leaves), 2);
    FlattenUniform(PropImages(l.props, encodeProp), propSize);
  }

  /** b cut into n pieces of k bytes. */
  function Chunks(b: seq<byte>, k: nat, n: nat): (r: seq<seq<byte>>)
    requires |b| == k * n
    ensures |r| == n && Uniform(r, k)
    decreases n
  {
    if n == 0 then []
    else
      assert k * (n - 1) == k * n - k;
      Chunks(b[..k * (n - 1)], k, n - 1) + [b[k * (n - 1)..]]
  }

  lemma {:induction false} ChunksFlatten(parts: seq<seq<byte>>, k: nat)
    requires Uniform(parts, k)
    ensures |Flatten(parts)| == k * |parts|
    ensures Chunks(Flatten(parts), k, |parts|) == parts
    decreases |parts|
  {
    FlattenUniform(parts, k);
    if parts != [] {
      var n := |parts|;
      var init := parts[..n - 1];
      ChunksFlatten(init, k);
      assert k * (n - 1) == k * n - k;
      assert Flatten(parts)[..k * (n - 1)] == Flatten(init);
      assert Flatten(parts)[k * (n - 1)..] == parts[n - 1];
      assert parts == init + [parts[n - 1]];
    }
  }

  /** A reader of the lump image: the three counts, then the entries. */
  datatype LumpImageParts = LumpImageParts(dict: seq<seq<byte>>, leaves: seq<seq<byte>>, props: seq<seq<byte>>)

  /** One counted section of the image: a 32-bit count n, then n pieces of
      k bytes; yields the pieces and what follows them. */
  function ReadSection(b: seq<byte>, k: nat): Option<(seq<seq<byte>>, seq<byte>)>
  {
    if |b| < 4 then None
    else
      var n := WordOfBytes(b[..4]);
      if |b| < 4 + k * n then None
      else Some((Chunks(b[4..4 + k * n], k, n), b[4 + k * n..]))
  }

  function ReadLumpImage(b: seq<byte>, propSize: nat): Option<LumpImageParts>
  {
    match ReadSection(b, DETAIL_NAME_LENGTH)
    case None => None
    case Some((dict, rest)) =>
      match ReadSection(rest, 2)
      case None => None
      case Some((leaves, rest2)) =>
        match ReadSection(rest2, propSize)
        case None => None
        case Some((props, rest3)) =>
          if rest3 != [] then None else Some(LumpImageParts(dict, leaves, props))
  }

  lemma ReadSectionOf(n: nat, f: seq<byte>, rest: seq<byte>, k: nat)
    requires n < TWO32 && |f| == k * n
    ensures ReadSection(IntBytes(n) + f + rest, k) == Some((Chunks(f, k, n), rest))
  {
    IntBytesRoundTrip(n);
    var b := IntBytes(n) + f + rest;
    var m := |f|;
    assert |IntBytes(n)| == 4;
    assert b[..4] == IntBytes(n);
    assert b[4..4 + m] == f;
    assert b[4 + m..] == rest;
    assert WordOfBytes(b[..4]) == n;
  }

  /** Reading the image back recovers every dictionary entry, leaf and prop
      image, as long as each count fits the 32-bit count word. */
  lemma LumpImageRoundTrip(l: Lumps, encodeProp: PropLump -> seq<byte>, propSize: nat)
    requires Uniform(l.dict, DETAIL_NAME_LENGTH)
    requires forall p :: |encodeProp(p)| == propSize
    requires |l.dict| < TWO32 && |l.leaves| < TWO32 && |l.props| < TWO32
    ensures ReadLumpImage(LumpImage(l, encodeProp), propSize) ==
      Some(LumpImageParts(l.dict, LeafImages(l.leaves), PropImages(l.props, encodeProp)))
  {
    Uniformity(l, encodeProp, propSize);
    ReadParts(l.dict, LeafImages(l.leaves), PropImages(l.props, encodeProp), propSize);
  }

  lemma ReadParts(pd: seq<seq<byte>>, pl: seq<seq<byte>>, pp: seq<seq<byte>>, propSize: nat)
    requires Uniform(pd, DETAIL_NAME_LENGTH) && Uniform(pl, 2) && Uniform(pp, propSize)
    requires |pd| < TWO32 && |pl| < TWO32 && |pp| < TWO32
    ensures ReadLumpImage(IntBytes(|pd|) + Flatten(pd) + IntBytes(|pl|) + Flatten(pl)
      + IntBytes(|pp|) + Flatten(pp), propSize) == Some(LumpImageParts(pd, pl, pp))
  {
    var fd, fl, fp := Flatten(pd), Flatten(pl), Flatten(pp);
    ChunksFlatten(pd, DETAIL_NAME_LENGTH);
    ChunksFlatten(pl, 2);
    ChunksFlatten(pp, propSize);
    var tail2 := IntBytes(|pp|) + fp + [];
    var tail1 := IntBytes(|pl|) + fl + tail2;
    RegroupSections(IntBytes(|pd|), fd, IntBytes(|pl|), fl, IntBytes(|pp|), fp);
    ReadSectionOf(|pd|, fd, tail1, DETAIL_NAME_LENGTH);
    ReadSectionOf(|pl|, fl, tail2, 2);
    ReadSectionOf(|pp|, fp, [], propSize);
  }

  /** The six pieces of the image, grouped section by section from the right. */
  lemma RegroupSections<T>(a: seq<T>, b: seq<T>, c: seq<T>, d: seq<T>, e: seq<T>, f: seq<T>)
    ensures a + b + c + d + e + f == a + b + (c + d + (e + f + []))
  {
  }

  lemma Uniformity(l: Lumps, encodeProp: PropLump -> seq<byte>, propSize: nat)
    requires forall p :: |encodeProp(p)| == propSize
    ensures Uniform(PropImages(l.props, encodeProp), propSize)
  {
  }

  /** GetCollisionModel's key: _strlwr, then the strchr loop turning each
      backslash into a forward slash. */
  method CollisionKeyOf(name: string) returns (key: string)
    ensures key == CollisionKey(name)
  {
    key := ToLower(name);
    while '\\' in key
      invariant FixSlashes(key) == CollisionKey(name)
      decreases multiset(key)['\\']
    {
      var j := FirstIndex(key, '\\');
      BackslashReplaced(key, j);
      key := key[j := '/'];
    }
    assert FixSlashes(key) == key;
  }

  /** Turning one backslash into a slash leaves FixSlashes' result alone and
      removes one backslash. */
  lemma BackslashReplaced(key: string, j: nat)
    requires j < |key| && key[j] == '\\'
    ensures FixSlashes(key[j := '/']) == FixSlashes(key)
    ensures multiset(key[j := '/'])['\\'] < multiset(key)['\\']
  {
    var next := key[j := '/'];
    assert key == key[..j] + [key[j]] + key[j + 1..];
    assert next == key[..j] + ['/'] + key[j + 1..];
    assert multiset(key) == multiset(key[..j]) + multiset{'\\'} + multiset(key[j + 1..]);
    assert multiset(next) == multiset(key[..j]) + multiset{'/'} + multiset(key[j + 1..]);
  }

  // ---------------------------------------------------------------------
  // The mutable lumps
  // ---------------------------------------------------------------------

  /** s_StaticPropDictLump, s_StaticPropLump, s_StaticPropLeafLump, the
      collision cache and the info_lighting entities. */
  class PropLumps {
    var dict: seq<seq<byte>>
    var props: seq<PropLump>
    var leaves: seq<u16>
    var collisionCache: map<string, Option<string>>
    const lightingInfo: seq<LightingEntity>

    function Contents(): Lumps
      reads this
    {
      Lumps(dict, props, leaves)
    }

    ghost predicate Valid()
      reads this
    {
      LumpsValid(Contents())
    }

    constructor(lightingInfo: seq<LightingEntity>)
      ensures Valid() && Contents() == NoLumps && collisionCache == map[]
      ensures this.lightingInfo == lightingInfo
    {
      dict, props, leaves := [], [], [];
      collisionCache := map[];
      this.lightingInfo := lightingInfo;
    }

    /** AddStaticPropDictLump: the index of the entry, appended if new. */
    method AddStaticPropDictLump(name: string) returns (index: nat)
      modifies this
      ensures (dict, index) == DictAdd(old(dict), name)
      ensures props == old(props) && leaves == old(leaves) && collisionCache == old(collisionCache)
    {
      var entry := DictName(name);
      assert dict[..|dict|] == dict;
      var i := |dict|;
      while i > 0
        invariant 0 <= i <= |dict|
        invariant FindFromEnd(dict, entry, |dict|) == FindFromEnd(dict, entry, i)
      {
        i := i - 1;
        if dict[i] == entry {
          return i;
        }
      }
      dict := dict + [entry];
      index := |dict| - 1;
    }

    /** GetCollisionModel: the hull for the name, through the cache. */
    method GetCollisionModel(name: string, w: LumpWorld) returns (hull: Option<string>)
      modifies this
      ensures hull == CollisionLookup(old(collisionCache), name, w)
      ensures collisionCache == old(collisionCache)[CollisionKey(name) := hull]
      ensures Contents() == old(Contents())
    {
      var key := CollisionKeyOf(name);
      if key in collisionCache {
        return collisionCache[key];
      }
      if LoadStudioModel(w.readFile(name)).None? {
        collisionCache := collisionCache[key := None];
        return None;
      }
      hull := if w.convexHull(name) then Some(name) else None;
      collisionCache := collisionCache[key := hull];
    }

    /** ComputeLightingOrigin: the backward scan over the info_lighting
        entities. */
    method ComputeLightingOrigin(target: string) returns (found: bool, origin: Vec3)
      ensures found == LightingOriginOf(lightingInfo, target).Some?
      ensures found ==> origin == LightingOriginOf(lightingInfo, target).value
    {
      var i := |lightingInfo|;
      assert lightingInfo[..i] == lightingInfo;
      while i > 0
        invariant 0 <= i <= |lightingInfo|
        invariant LightingOriginOf(lightingInfo, target) == LightingOriginOf(lightingInfo[..i], target)
      {
        assert lightingInfo[..i][..i - 1] == lightingInfo[..i - 1];
        i := i - 1;
        if lightingInfo[i].targetName == target {
          return true, lightingInfo[i].origin;
        }
      }
      return false, Zero3;
    }

    /** The lighting-origin step of AddStaticPropToLump: only a non-empty
        name is looked up. */
    method LightingOriginFor(build: PropBuild) returns (lighting: Option<Vec3>)
      ensures lighting == LightingFor(lightingInfo, build)
    {
      lighting := None;
      if build.lightingOrigin != "" {
        var found, origin := ComputeLightingOrigin(build.lightingOrigin);
        if found {
          lighting := Some(origin);
        }
      }
    }

    /** The closing loop of AddStaticPropToLump: the leaves, in order. */
    method AppendLeaves(leafList: seq<u16>)
      modifies this
      ensures leaves == old(leaves) + leafList
      ensures dict == old(dict) && props == old(props) && collisionCache == old(collisionCache)
    {
      for j := 0 to |leafList|
        invariant leaves == old(leaves) + leafList[..j]
        invariant dict == old(dict) && props == old(props) && collisionCache == old(collisionCache)
      {
        leaves := leaves + [leafList[j]];
        assert leafList[..j + 1] == leafList[..j] + [leafList[j]];
      }
      assert leafList[..|leafList|] == leafList;
    }

    /** AddStaticPropToLump. */
    method AddStaticPropToLump(build: PropBuild, w: LumpWorld)
      requires Valid()
      modifies this
      ensures Valid()
      ensures var hull := CollisionLookup(old(collisionCache), build.modelName, w);
        && collisionCache == old(collisionCache)[CollisionKey(build.modelName) := hull]
        && Contents() == Register(old(Contents()), build, hull, lightingInfo, w)
    {
      ghost var l0 := Contents();
      var hull := GetCollisionModel(build.modelName, w);
      RegisterKeepsValid(l0, build, hull, lightingInfo, w);
      if hull.None? {
        return;
      }
      var leafList := w.leavesOf(hull.value, build.origin, build.angles);
      if |leafList| == 0 {
        return;
      }
      var propType := AddStaticPropDictLump(build.modelName);
      var lighting := LightingOriginFor(build);
      props := props + [PropRecord(build, propType, |leaves|, |leafList|, lighting)];
      AppendLeaves(leafList);
    }
  }
}
