/**
 * The combine pass of StaticPropAdditions.cpp as functions on a value of the
 * pass's state: registering a prop (AddStaticPropToLump), the decompile and
 * mesh memos, the compile step (CompileAndAddToLump), rescaled single props
 * (AddStaticPropToLumpWithScaling, ScalePropAndAddToLump) and the merge of a
 * key group inside one combine volume (GroupPropsForVolume). The class in
 * CombinePass.dfy performs these steps in place and is proved equal to them.
 */
module PropCombine {
  import opened Common
  import opened StaticPropLump
  import opened QcParser
  import opened Mesh
  import opened Grouping
  import opened BuildCache

  /** A zero-filled s_source_t. */
  const EmptyMesh: MeshData := MeshData([], [], [], [])

  /** A mesh as Load_SMD leaves it: every face corner names a vertex. */
  type Smd = m: MeshData | WellFormed(m) witness EmptyMesh

  /** A QC descriptor the parser accepted: it has a model path and a
      reference mesh. */
  type ParsedQc = q: QCFile | q.path.Some? && q.refSMD.Some? witness QCFile(Some(""), Some(""), None, 1.0, 1.0)

  /** loaded_model_smds_t: the reference and collision meshes of a model. */
  datatype LoadedSmds = LoadedSmds(ref: Smd, phy: Smd)

  /** A bspbrush_t of a combine volume, by its bounds. */
  datatype Brush = Brush(mins: Vec3, maxs: Vec3)

  /**
   * The collaborators of the pass:
   *  - lump, lighting: what AddStaticPropToLump consults;
   *  - crc: CRC-32 over a byte string; floatBits: the four bytes of a float;
   *  - angleMatrix: AngleMatrix (the rotation matrix of a QAngle);
   *  - bounds: CollideGetAABB of a hull placed at an origin and angles;
   *  - clips: whether IntersectBrush of BrushFromBounds(mins, maxs) with a
   *    brush is non-null;
   *  - crowbar: whether the decompiler exits with 0 for a model;
   *    decompiledQc: the tokens of the .qc it wrote for the model;
   *  - readFloat: atof; loadSmd: Load_SMD of a file name;
   *  - studiomdl: whether the compiler exits with 0 for the meshes, build
   *    variables and model path written into the generated .qc;
   *  - checksums: GetModelChecksum;
   *  - gameDir: GetModSubdirectory after Q_RemoveDotSlashes; mapBase:
   *    V_FileBase of the map file name.
   */
  datatype CombineWorld = CombineWorld(
    lump: LumpWorld,
    lighting: seq<LightingEntity>,
    crc: Crc,
    floatBits: real -> seq<byte>,
    angleMatrix: AngleMatrix,
    bounds: (string, Vec3, Angles) -> (Vec3, Vec3),
    clips: (Vec3, Vec3, Brush) -> bool,
    crowbar: string -> bool,
    decompiledQc: string -> Option<seq<string>>,
    readFloat: FloatReader,
    loadSmd: string -> Smd,
    studiomdl: (MeshData, MeshData, BuildVars, string) -> bool,
    checksums: Checksums,
    gameDir: string,
    mapBase: string)

  /**
   * What the pass's calls share: the three lumps and the collision cache,
   * the QC memo dQCs and the mesh memo dLoadedSMDs (both keyed on the
   * lower-cased name, as CUtlHashDict compares names), the key-to-model map
   * filled by InitCache, the lines appended to the cache file, and whether a
   * fatal Error has ended the program.
   */
  datatype St = St(
    lumps: Lumps,
    collision: map<string, Option<string>>,
    qcs: map<string, ParsedQc>,
    smds: map<string, LoadedSmds>,
    combined: map<u32, string>,
    cache: seq<string>,
    halted: bool)

  // ---------------------------------------------------------------------
  // Registering a prop and the memos
  // ---------------------------------------------------------------------

  /** AddStaticPropToLump on the state. */
  function Registered(s: St, b: PropBuild, w: CombineWorld): St
  {
    var hull := CollisionLookup(s.collision, b.modelName, w.lump);
    s.(lumps := Register(s.lumps, b, hull, w.lighting, w.lump),
       collision := s.collision[CollisionKey(b.modelName) := hull])
  }

  /** V_StripExtension: the name without the text from its last '.', when no
      separator follows that dot and it is not the first character. */
  function StripExtension(s: string): (r: string)
    ensures |r| <= |s| && r == s[..|r|]
  {
    if |s| == 0 then s
    else
      var e := ExtensionScan(s, |s| - 1);
      if e > 0 && s[e] == '.' then s[..e] else s
  }

  /** The backward scan for '.' that stops at a separator or at index 0. */
  function ExtensionScan(s: string, e: nat): (r: nat)
    requires e < |s|
    ensures r <= e
  {
    if e > 0 && s[e] != '.' && !IsSlash(s[e]) then ExtensionScan(s, e - 1) else e
  }

  /** The directory crowbar decompiles a model into, with every '/' made
      '\', where the QC parser resolves the mesh paths. */
  function DecompDir(gameDir: string, name: string): string
  {
    ReplaceChar(gameDir + "decomp_cache\\" + StripExtension(name) + "\\", '/', '\\')
  }

  /** DecompileModel's result: nothing when crowbar fails or the decompiled
      script is rejected; otherwise the parsed descriptor. */
  function Decompile(name: string, w: CombineWorld): (r: Option<ParsedQc>)
    ensures r.Some? <==> w.crowbar(name) && ParseResult(DecompDir(w.gameDir, name), w.decompiledQc(name), w.readFloat).1
  {
    if !w.crowbar(name) then None
    else
      var (qc, ok) := ParseResult(DecompDir(w.gameDir, name), w.decompiledQc(name), w.readFloat);
      if ok then Some(qc) else None
  }

  /** dQCs.Insert(path, qc): a descriptor already filed under the path is kept
      and is what the returned handle names; otherwise qc is filed. */
  function FileQc(qcs: map<string, ParsedQc>, qc: ParsedQc): (r: (map<string, ParsedQc>, ParsedQc))
    requires qc.path.Some?
    ensures ToLower(qc.path.value) in r.0 && r.0[ToLower(qc.path.value)] == r.1
    ensures r.0 == qcs[ToLower(qc.path.value) := r.1]
    ensures ToLower(qc.path.value) in qcs ==> r == (qcs, qcs[ToLower(qc.path.value)])
    ensures ToLower(qc.path.value) !in qcs ==> r.1 == qc
  {
    var key := ToLower(qc.path.value);
    if key in qcs then (qcs, qcs[key]) else (qcs[key := qc], qc)
  }

  /** Filing a descriptor a second time changes nothing. */
  lemma FileQcIdempotent(qcs: map<string, ParsedQc>, qc: ParsedQc)
    requires qc.path.Some?
    ensures FileQc(FileQc(qcs, qc).0, qc) == FileQc(qcs, qc)
  {
  }

  /** dQCs.Find(name), falling back to DecompileModel, which files the new
      descriptor under its own model path and hands back the entry filed
      there. */
  function QcLookup(s: St, name: string, w: CombineWorld): (r: (St, Option<ParsedQc>))
    ensures r.0 == s.(qcs := r.0.qcs)
    ensures r.1.None? ==> r.0 == s
    ensures ToLower(name) in s.qcs ==> r == (s, Some(s.qcs[ToLower(name)]))
    ensures ToLower(name) !in s.qcs ==> (r.1.Some? <==> Decompile(name, w).Some?)
    ensures ToLower(name) !in s.qcs && Decompile(name, w).Some? ==>
      (r.0.qcs, r.1.value) == FileQc(s.qcs, Decompile(name, w).value)
  {
    var key := ToLower(name);
    if key in s.qcs then (s, Some(s.qcs[key]))
    else
      match Decompile(name, w)
      case None => (s, None)
      case Some(qc) =>
        var (qcs, filed) := FileQc(s.qcs, qc);
        (s.(qcs := qcs), Some(filed))
  }

  /** The meshes of a descriptor, as the memo loads them: the collision mesh
      stays empty when the script names none. */
  function LoadMeshes(qc: ParsedQc, w: CombineWorld): LoadedSmds
  {
    var phy: Smd := if qc.phySMD.Some? then w.loadSmd(w.gameDir + qc.phySMD.value) else EmptyMesh;
    LoadedSmds(w.loadSmd(w.gameDir + qc.refSMD.value), phy)
  }

  /** dLoadedSMDs.Find(name), loading and inserting on a miss. */
  function SmdLookup(s: St, name: string, qc: ParsedQc, w: CombineWorld): (r: (St, LoadedSmds))
    ensures r.0 == s.(smds := r.0.smds)
    ensures ToLower(name) in r.0.smds && r.0.smds[ToLower(name)] == r.1
    ensures ToLower(name) in s.smds ==> r == (s, s.smds[ToLower(name)])
    ensures ToLower(name) !in s.smds ==> r.1 == LoadMeshes(qc, w)
  {
    var key := ToLower(name);
    if key in s.smds then (s, s.smds[key])
    else
      var m := LoadMeshes(qc, w);
      (s.(smds := s.smds[key := m]), m)
  }

  // ---------------------------------------------------------------------
  // Compiling
  // ---------------------------------------------------------------------

  /** maps\<map base>\<key in lower-case hex>.mdl, the $modelname of a
      compiled prop. */
  function ModelPath(mapBase: string, crc: u32): string
  {
    "maps\\" + mapBase + "\\" + Hex(crc) + ".mdl"
  }

  /** The name a compiled prop is registered under. */
  function CompiledName(mapBase: string, crc: u32): string
  {
    "models\\" + ModelPath(mapBase, crc)
  }

  /** CompileAndAddToLump: a failing studiomdl is a fatal Error; otherwise
      the build is registered under the compiled name at the given origin and
      angles and comes back. */
  function Compiled(s: St, mesh: MeshData, phy: MeshData, vars: BuildVars, b: PropBuild,
                    origin: Vec3, angles: Angles, crc: u32, w: CombineWorld): (r: (St, Option<PropBuild>))
    ensures r.1.None? <==> !w.studiomdl(mesh, phy, vars, ModelPath(w.mapBase, crc))
    ensures r.1.None? ==> r.0 == s.(halted := true)
    ensures r.1.Some? ==> r.1.value == b.(modelName := CompiledName(w.mapBase, crc), origin := origin, angles := angles)
    ensures r.1.Some? ==> r.0 == Registered(s, r.1.value, w)
  {
    var full := ModelPath(w.mapBase, crc);
    if !w.studiomdl(mesh, phy, vars, full) then (s.(halted := true), None)
    else
      var nb := b.(modelName := "models\\" + full, origin := origin, angles := angles);
      (Registered(s, nb, w), Some(nb))
  }

  /** The cache line, when one could be written, and the insertion into the
      key map that follow a compile. */
  function Recorded(s: St, line: Option<string>, crc: u32, path: string): St
  {
    s.(cache := if line.Some? then s.cache + [line.value] else s.cache, combined := s.combined[crc := path])
  }

  // ---------------------------------------------------------------------
  // Rescaled single props
  // ---------------------------------------------------------------------

  /** The fixed angles a mesh is combined with to undo the loader's turn. */
  const MinusQuarterTurn: Angles := Angles(0.0, -90.0, 0.0)

  /** The scale a mesh is combined at: its descriptor's scale times the prop's. */
  function CombinedScale(meshScale: real, propScale: real): real
  {
    meshScale * propScale
  }

  /** One mesh combined into an empty one at the origin, scaled. */
  function Scaled(m: Smd, scale: real, angleMatrix: AngleMatrix): MeshData
  {
    Combine(EmptyMesh, m, Placement(Zero3, MinusQuarterTurn, scale), angleMatrix)
  }

  /** ScalePropAndAddToLump. */
  function ScaleProp(s: St, b: PropBuild, vars: BuildVars, crc: u32, w: CombineWorld): St
  {
    var (s1, qc) := QcLookup(s, b.modelName, w);
    if qc.None? then Registered(s1, b, w)
    else ScaleLoaded(s1, b, vars, crc, qc.value, w)
  }

  /** The part of ScalePropAndAddToLump after a descriptor has been found:
      the meshes are loaded and scaled, then compiled. */
  function ScaleLoaded(s: St, b: PropBuild, vars: BuildVars, crc: u32, qc: ParsedQc, w: CombineWorld): St
  {
    var loaded := SmdLookup(s, b.modelName, qc, w);
    CompileScaled(loaded.0, b, vars, crc, ScaledMeshes(loaded.1, qc, b.scale, w.angleMatrix), w)
  }

  /** The reference mesh and, when it has vertices, the collision mesh, each
      combined into an empty mesh at the descriptor's scale times the prop's. */
  function ScaledMeshes(m: LoadedSmds, qc: ParsedQc, scale: real, angleMatrix: AngleMatrix): (MeshData, MeshData)
  {
    (Scaled(m.ref, CombinedScale(qc.refScale, scale), angleMatrix),
     if |m.phy.vertex| != 0 then Scaled(m.phy, CombinedScale(qc.phyScale, scale), angleMatrix) else EmptyMesh)
  }

  /** The compile of a scaled prop, its cache line and its key map entry. */
  function CompileScaled(s: St, b: PropBuild, vars: BuildVars, crc: u32, meshes: (MeshData, MeshData),
                         w: CombineWorld): St
  {
    var (s3, out) := Compiled(s, meshes.0, meshes.1, vars, b, b.origin, b.angles, crc, w);
    if out.None? then s3
    else Recorded(s3, SingleCacheLine(b.modelName, crc, out.value.modelName, w.checksums), crc, out.value.modelName)
  }

  /** The rescale key: CRC of name, skin, scale and solid. */
  function RescaleKey(b: PropBuild, w: CombineWorld): u32
  {
    w.crc(RescaleKeyBytes(b, w.floatBits))
  }

  /** AddStaticPropToLumpWithScaling. */
  function Rescaled(s: St, b: PropBuild, vars: BuildVars, w: CombineWorld): St
  {
    if UnitScale(b.scale) then Registered(s, b, w)
    else
      var key := RescaleKey(b, w);
      if key in s.combined then Registered(s, b.(modelName := s.combined[key]), w)
      else ScaleProp(s, b, vars, key, w)
  }

  /** A prop at its own scale, or one whose rescaled model is already known,
      is registered once and nothing else changes: the decompile and mesh
      memos, the key map and the cache file are left alone. A known model is
      used with the prop's own origin and angles. */
  lemma RescaleWithoutCompile(s: St, b: PropBuild, vars: BuildVars, w: CombineWorld)
    requires UnitScale(b.scale) || RescaleKey(b, w) in s.combined
    ensures var r := Rescaled(s, b, vars, w);
      var nb := if UnitScale(b.scale) then b else b.(modelName := s.combined[RescaleKey(b, w)]);
      && nb.origin == b.origin && nb.angles == b.angles && nb.scale == b.scale
      && r == Registered(s, nb, w)
      && r.qcs == s.qcs && r.smds == s.smds && r.combined == s.combined && r.cache == s.cache && !r.halted == !s.halted
  {
  }

  /** A rescaled prop whose model cannot be decompiled is registered as it
      is, unscaled, and the key map and cache file stay as they were. */
  lemma RescaleWithoutDecompile(s: St, b: PropBuild, vars: BuildVars, w: CombineWorld)
    requires !UnitScale(b.scale) && RescaleKey(b, w) !in s.combined
    requires QcLookup(s, b.modelName, w).1.None?
    ensures Rescaled(s, b, vars, w) == Registered(s, b, w)
  {
  }

  /** A rescaled prop with a new key and a decompiled model: unless the
      compile is fatal, the compiled model is registered at the prop's own
      origin and angles, the key now maps to it, and exactly one cache line
      is appended when the model's checksum can be read and none otherwise. */
  lemma RescaleCompiles(s: St, b: PropBuild, vars: BuildVars, w: CombineWorld)
    requires !UnitScale(b.scale) && RescaleKey(b, w) !in s.combined
    requires QcLookup(s, b.modelName, w).1.Some?
    requires !Rescaled(s, b, vars, w).halted
    ensures var r := Rescaled(s, b, vars, w);
      var key := RescaleKey(b, w);
      var path := CompiledName(w.mapBase, key);
      && r.lumps == Registered(s, b.(modelName := path), w).lumps
      && r.collision == Registered(s, b.(modelName := path), w).collision
      && r.combined == s.combined[key := path]
      && r.cache == s.cache + (if w.checksums(b.modelName).Some? then [SingleCacheLine(b.modelName, key, path, w.checksums).value] else [])
      && ToLower(b.modelName) in r.smds
  {
    var key := RescaleKey(b, w);
    var (s1, qc) := QcLookup(s, b.modelName, w);
    var loaded := SmdLookup(s1, b.modelName, qc.value, w);
    assert Rescaled(s, b, vars, w) == ScaleLoaded(s1, b, vars, key, qc.value, w);
    CompileScaledCompiles(loaded.0, b, vars, key, ScaledMeshes(loaded.1, qc.value, b.scale, w.angleMatrix), w);
  }

  /** A compile that is not fatal registers the compiled model at the prop's
      own origin and angles, maps the key to it and appends one cache line
      when the model's checksum can be read. */
  lemma CompileScaledCompiles(s: St, b: PropBuild, vars: BuildVars, crc: u32, meshes: (MeshData, MeshData), w: CombineWorld)
    requires !CompileScaled(s, b, vars, crc, meshes, w).halted
    ensures var r := CompileScaled(s, b, vars, crc, meshes, w);
      var path := CompiledName(w.mapBase, crc);
      && r.lumps == Registered(s, b.(modelName := path), w).lumps
      && r.collision == Registered(s, b.(modelName := path), w).collision
      && r.combined == s.combined[crc := path]
      && r.cache == s.cache + (if w.checksums(b.modelName).Some? then [SingleCacheLine(b.modelName, crc, path, w.checksums).value] else [])
      && r.smds == s.smds
  {
  }

  /** Nothing in a compiled name is a separator, a terminator or a newline
      when the map's base name has none. */
  lemma CompiledNameClean(mapBase: string, crc: u32)
    requires Clean(mapBase)
    ensures Clean(CompiledName(mapBase, crc)) && |CompiledName(mapBase, crc)| > 0
  {
    HexFieldClean(crc);
    assert Hex(crc) == HexField(crc)[2..];
    var p := CompiledName(mapBase, crc);
    assert p == "models\\maps\\" + mapBase + "\\" + Hex(crc) + ".mdl";
    forall i | 0 <= i < |p|
      ensures !IsStop(p[i])
    {
      var a := 12;
      var b := a + |mapBase|;
      var c := b + 1 + |Hex(crc)|;
      if i < a {
      } else if i < b {
        assert p[i] == mapBase[i - a];
      } else if i == b {
      } else if i < c {
        assert p[i] == Hex(crc)[i - b - 1];
      } else {
      }
    }
  }

  /** The line a rescale writes is read back by a later run's InitCache:
      it is kept, mapping the key to the compiled model, exactly when the
      source model's checksum is unchanged and the compiled model exists;
      otherwise it is dropped. */
  lemma RescaleLineReadBack(s: St, b: PropBuild, vars: BuildVars, w: CombineWorld,
                            later: Checksums, fileExists: string -> bool)
    requires !UnitScale(b.scale) && RescaleKey(b, w) !in s.combined
    requires QcLookup(s, b.modelName, w).1.Some?
    requires !Rescaled(s, b, vars, w).halted
    requires w.checksums(b.modelName).Some?
    requires |b.modelName| > 0 && Clean(b.modelName) && Clean(w.mapBase)
    ensures var r := Rescaled(s, b, vars, w);
      var key := RescaleKey(b, w);
      var path := CompiledName(w.mapBase, key);
      && |r.cache| == |s.cache| + 1
      && ParseLine(r.cache[|s.cache|], later, fileExists) ==
         if later(b.modelName) == w.checksums(b.modelName) && fileExists(path)
         then Accepted(key, path, |r.cache[|s.cache|]|)
         else Rejected
  {
    RescaleCompiles(s, b, vars, w);
    var key := RescaleKey(b, w);
    CompiledNameClean(w.mapBase, key);
    SingleLineRoundTrip(b.modelName, key, CompiledName(w.mapBase, key), w.checksums, later, fileExists);
  }

  // ---------------------------------------------------------------------
  // Gathering a volume's group
  // ---------------------------------------------------------------------

  /** IsBoxIntersectingBox: the boxes overlap on every axis. */
  predicate BoxesIntersect(aMin: Vec3, aMax: Vec3, bMin: Vec3, bMax: Vec3)
  {
    && aMin.x <= bMax.x && aMax.x >= bMin.x
    && aMin.y <= bMax.y && aMax.y >= bMin.y
    && aMin.z <= bMax.z && aMax.z >= bMin.z
  }

  /** The prop's hull box, corrected for its scale about its origin. */
  function ScaledBox(b: PropBuild, hull: string, w: CombineWorld): (Vec3, Vec3)
  {
    var (mins, maxs) := w.bounds(hull, b.origin, b.angles);
    (Add3(b.origin, Scale3(b.scale, Sub3(mins, b.origin))), Add3(b.origin, Scale3(b.scale, Sub3(maxs, b.origin))))
  }

  /** A brush the box meets: the bounds overlap and the clip is non-empty. */
  predicate Touches(box: (Vec3, Vec3), brush: Brush, w: CombineWorld)
  {
    BoxesIntersect(box.0, box.1, brush.mins, brush.maxs) && w.clips(box.0, box.1, brush)
  }

  /** The number of brushes the box meets. */
  function Hits(box: (Vec3, Vec3), brushes: seq<Brush>, w: CombineWorld): nat
  {
    if brushes == [] then 0
    else Hits(box, brushes[..|brushes| - 1], w) + (if Touches(box, brushes[|brushes| - 1], w) then 1 else 0)
  }

  /** The locals of GroupPropsForVolume's first loop, with the state and the
      accounted-for flags. sumPos and sumYaw are the running sums avgPos and
      avgYaw hold before the division. */
  datatype Gather = Gather(s: St, accounted: seq<bool>, group: seq<nat>, sumPos: Vec3, sumYaw: real, made: nat)

  predicate Indexes(group: seq<nat>, n: nat)
  {
    forall i :: 0 <= i < |group| ==> group[i] < n
  }

  /** The brush loop for build bi: every brush the box meets appends bi
      once more, adds its origin and yaw once more and marks it. */
  function Scan(g: Gather, bi: nat, b: PropBuild, box: (Vec3, Vec3), brushes: seq<Brush>, w: CombineWorld): (r: Gather)
    requires bi < |g.accounted|
    ensures |r.accounted| == |g.accounted|
  {
    if brushes == [] then g
    else
      var g1 := Scan(g, bi, b, box, brushes[..|brushes| - 1], w);
      if Touches(box, brushes[|brushes| - 1], w) then
        g1.(group := g1.group + [bi], sumPos := Add3(g1.sumPos, b.origin), sumYaw := g1.sumYaw + b.angles.yaw,
            accounted := g1.accounted[bi := true])
      else g1
  }

  /** One pass of the first loop: an accounted build is skipped (and so is
      everything once the program has stopped); a build without a hull takes
      the rescale path, is marked and counted; any other is scanned against
      the volume's brushes. */
  function GatherOne(g: Gather, bi: nat, builds: seq<PropBuild>, vars: seq<BuildVars>, brushes: seq<Brush>,
                     w: CombineWorld): (r: Gather)
    requires bi < |builds| && |vars| == |builds| && |g.accounted| == |builds|
    ensures |r.accounted| == |g.accounted|
  {
    if g.s.halted || g.accounted[bi] then g
    else
      var b := builds[bi];
      var hull := CollisionLookup(g.s.collision, b.modelName, w.lump);
      GatherHull(g.(s := g.s.(collision := g.s.collision[CollisionKey(b.modelName) := hull])), bi, b, vars[bi], hull, brushes, w)
  }

  /** The rest of a pass once the hull lookup is done. */
  function GatherHull(g: Gather, bi: nat, b: PropBuild, v: BuildVars, hull: Option<string>, brushes: seq<Brush>,
                      w: CombineWorld): (r: Gather)
    requires bi < |g.accounted|
    ensures |r.accounted| == |g.accounted|
  {
    if hull.None? then g.(s := Rescaled(g.s, b, v, w), accounted := g.accounted[bi := true], made := g.made + 1)
    else Scan(g, bi, b, ScaledBox(b, hull.value, w), brushes, w)
  }

  /** The first loop over a key group. */
  function Gathered(g: Gather, keys: seq<nat>, builds: seq<PropBuild>, vars: seq<BuildVars>, brushes: seq<Brush>,
                    w: CombineWorld): (r: Gather)
    requires Indexes(keys, |builds|) && |vars| == |builds| && |g.accounted| == |builds|
    ensures |r.accounted| == |g.accounted|
  {
    if keys == [] then g
    else GatherOne(Gathered(g, keys[..|keys| - 1], builds, vars, brushes, w), keys[|keys| - 1], builds, vars, brushes, w)
  }

  // ---------------------------------------------------------------------
  // Merging a group
  // ---------------------------------------------------------------------

  /** A running sum divided by the group size. */
  function Mean(sum: real, n: nat): (r: real)
    requires n > 0
    ensures r * n as real == sum
  {
    sum / n as real
  }

  /** avgPos and avgYaw after the division by the group size. */
  function MeanPos(g: Gather): Vec3
    requires |g.group| > 0
  {
    Vec3(Mean(g.sumPos.x, |g.group|), Mean(g.sumPos.y, |g.group|), Mean(g.sumPos.z, |g.group|))
  }

  function MeanYaw(g: Gather): real
    requires |g.group| > 0
  {
    Mean(g.sumYaw, |g.group|)
  }

  /** The bytes the merge key is fed, member by member. */
  function MergeKeyBytes(group: seq<nat>, builds: seq<PropBuild>, avgPos: Vec3, yaw: real, angleMatrix: AngleMatrix): seq<byte>
    requires Indexes(group, |builds|)
  {
    if group == [] then []
    else
      var b := builds[group[|group| - 1]];
      MergeKeyBytes(group[..|group| - 1], builds, avgPos, yaw, angleMatrix) + MemberKeyBytes(b, Place(b, avgPos, yaw, angleMatrix))
  }

  /** The locals of the combine loop: the state, the flags and the two meshes
      being built. */
  datatype Mix = Mix(s: St, accounted: seq<bool>, mesh: MeshData, phy: MeshData)

  /** One pass of the combine loop: a member whose model cannot be
      decompiled is skipped; otherwise its meshes are combined at its
      quantised placement and it is marked. */
  function MixOne(m: Mix, bi: nat, builds: seq<PropBuild>, avgPos: Vec3, yaw: real, w: CombineWorld): (r: Mix)
    requires bi < |builds| && |m.accounted| == |builds|
    ensures |r.accounted| == |m.accounted|
  {
    var (s1, qc) := QcLookup(m.s, builds[bi].modelName, w);
    if qc.None? then m.(s := s1)
    else MixLoaded(m.(s := s1), bi, builds, qc.value, avgPos, yaw, w).(accounted := m.accounted[bi := true])
  }

  /** The rest of a pass of the combine loop once the member's descriptor is
      known. */
  function MixLoaded(m: Mix, bi: nat, builds: seq<PropBuild>, qc: ParsedQc, avgPos: Vec3, yaw: real, w: CombineWorld): (r: Mix)
    requires bi < |builds| && |m.accounted| == |builds|
    ensures |r.accounted| == |m.accounted|
  {
    var b := builds[bi];
    var (s2, smds) := SmdLookup(m.s, b.modelName, qc, w);
    var p := Place(b, avgPos, yaw, w.angleMatrix);
    var (mesh, phy) := MemberMeshes(m.mesh, m.phy, smds, qc, PlacedOrigin(p), PlacedAngles(p), b.scale, w.angleMatrix);
    Mix(s2, m.accounted, mesh, phy)
  }

  /** A member's meshes combined into the group's: the reference mesh always,
      the collision mesh when the member has one, each at the descriptor's
      scale times the member's. */
  function MemberMeshes(mesh: MeshData, phy: MeshData, smds: LoadedSmds, qc: ParsedQc, o: Vec3, a: Angles, scale: real,
                        angleMatrix: AngleMatrix): (MeshData, MeshData)
  {
    (Combine(mesh, smds.ref, Placement(o, a, CombinedScale(qc.refScale, scale)), angleMatrix),
     if |smds.phy.vertex| != 0 then Combine(phy, smds.phy, Placement(o, a, CombinedScale(qc.phyScale, scale)), angleMatrix)
     else phy)
  }

  function Mixed(m: Mix, group: seq<nat>, builds: seq<PropBuild>, avgPos: Vec3, yaw: real, w: CombineWorld): (r: Mix)
    requires Indexes(group, |builds|) && |m.accounted| == |builds|
    ensures |r.accounted| == |m.accounted|
  {
    if group == [] then m
    else MixOne(Mixed(m, group[..|group| - 1], builds, avgPos, yaw, w), group[|group| - 1], builds, avgPos, yaw, w)
  }

  /** The model names of the group's members, in order. */
  function MemberNames(group: seq<nat>, builds: seq<PropBuild>): (r: seq<string>)
    requires Indexes(group, |builds|)
    ensures |r| == |group| && forall i :: 0 <= i < |group| ==> r[i] == builds[group[i]].modelName
  {
    seq(|group|, i requires 0 <= i < |group| => builds[group[i]].modelName)
  }

  /** What GroupPropsForVolume leaves: the state, the flags and the count it
      returns. */
  datatype Outcome = Outcome(s: St, accounted: seq<bool>, made: nat)

  /** The merge of a group of two or more: its key is looked up; a known key
      registers the stored model, otherwise the members are combined,
      compiled, recorded in the cache and the key map. The merged prop takes
      the first member's build, the mean origin and the snapped yaw. */
  function Merged(g: Gather, builds: seq<PropBuild>, vars: seq<BuildVars>, w: CombineWorld): (r: Outcome)
    requires |g.group| >= 2 && Indexes(g.group, |builds|) && |vars| == |builds| && |g.accounted| == |builds|
    ensures |r.accounted| == |g.accounted|
  {
    var avgPos := MeanPos(g);
    var yaw := SnapYaw(MeanYaw(g));
    var key := w.crc(MergeKeyBytes(g.group, builds, avgPos, yaw, w.angleMatrix));
    var first := builds[g.group[0]];
    if key in g.s.combined then
      Outcome(Registered(g.s, first.(modelName := g.s.combined[key], origin := avgPos, angles := GroupAngles(yaw)), w),
              g.accounted, g.made)
    else
      var m := Mixed(Mix(g.s, g.accounted, EmptyMesh, EmptyMesh), g.group, builds, avgPos, yaw, w);
      Outcome(MergeCompiled(m.s, m.mesh, m.phy, vars[g.group[0]], first, avgPos, yaw, key, MemberNames(g.group, builds), w),
              m.accounted, g.made)
  }

  /** The compile that follows the combine loop: a failing compile is fatal;
      otherwise the group's cache line, when one can be written, and the key
      are recorded. */
  function MergeCompiled(s: St, mesh: MeshData, phy: MeshData, v: BuildVars, first: PropBuild, avgPos: Vec3, yaw: real,
                         key: u32, names: seq<string>, w: CombineWorld): St
  {
    var (s1, out) := Compiled(s, mesh, phy, v, first, avgPos, GroupAngles(yaw), key, w);
    if out.None? then s1
    else
      var path := out.value.modelName;
      Recorded(s1, GroupCacheLineOf(names, key, path, w.checksums), key, path)
  }

  /** GroupPropsForVolume. The count it returns is the one before the
      post-increment of its final return statements. */
  function Grouped(s: St, accounted: seq<bool>, keys: seq<nat>, builds: seq<PropBuild>, vars: seq<BuildVars>,
                   brushes: seq<Brush>, w: CombineWorld): (r: Outcome)
    requires Indexes(keys, |builds|) && |vars| == |builds| && |accounted| == |builds|
    ensures |r.accounted| == |accounted|
  {
    var g := Gathered(Gather(s, accounted, [], Zero3, 0.0, 0), keys, builds, vars, brushes, w);
    GatheredIndexes(Gather(s, accounted, [], Zero3, 0.0, 0), keys, builds, vars, brushes, w);
    if g.s.halted || |g.group| < 1 then Outcome(g.s, g.accounted, g.made)
    else if |g.group| == 1 then
      Outcome(Rescaled(g.s, builds[g.group[0]], vars[g.group[0]], w), g.accounted[g.group[0] := true], g.made)
    else Merged(g, builds, vars, w)
  }

  lemma {:induction false} ScanIndexes(g: Gather, bi: nat, b: PropBuild, box: (Vec3, Vec3), brushes: seq<Brush>, w: CombineWorld, n: nat)
    requires bi < |g.accounted| && bi < n && Indexes(g.group, n)
    ensures Indexes(Scan(g, bi, b, box, brushes, w).group, n)
    decreases |brushes|
  {
    if brushes != [] {
      ScanIndexes(g, bi, b, box, brushes[..|brushes| - 1], w, n);
    }
  }

  lemma {:induction false} GatheredIndexes(g: Gather, keys: seq<nat>, builds: seq<PropBuild>, vars: seq<BuildVars>,
                                           brushes: seq<Brush>, w: CombineWorld)
    requires Indexes(keys, |builds|) && |vars| == |builds| && |g.accounted| == |builds|
    requires Indexes(g.group, |builds|)
    ensures Indexes(Gathered(g, keys, builds, vars, brushes, w).group, |builds|)
    decreases |keys|
  {
    if keys != [] {
      var k := keys[..|keys| - 1];
      GatheredIndexes(g, k, builds, vars, brushes, w);
      var g1 := Gathered(g, k, builds, vars, brushes, w);
      var bi := keys[|keys| - 1];
      if !g1.s.halted && !g1.accounted[bi] {
        var b := builds[bi];
        var hull := CollisionLookup(g1.s.collision, b.modelName, w.lump);
        if hull.Some? {
          var g2 := g1.(s := g1.s.(collision := g1.s.collision[CollisionKey(b.modelName) := hull]));
          ScanIndexes(g2, bi, b, ScaledBox(b, hull.value, w), brushes, w, |builds|);
        }
      }
    }
  }

  // ---------------------------------------------------------------------
  // Properties of the group pass
  // ---------------------------------------------------------------------

  /** The brush loop does not stop at the first brush it meets: a build
      that meets n brushes is appended n times, its origin and yaw are
      added n times, and it is marked once it meets any. Nothing else
      changes. */
  lemma ScanAppendsPerBrush(g: Gather, bi: nat, b: PropBuild, box: (Vec3, Vec3), brushes: seq<Brush>, w: CombineWorld)
    requires bi < |g.accounted|
    ensures var r := Scan(g, bi, b, box, brushes, w);
      var n := Hits(box, brushes, w);
      && r.s == g.s && r.made == g.made
      && r.group == g.group + seq(n, _ => bi)
      && r.sumPos == Add3(g.sumPos, Scale3(n as real, b.origin))
      && r.sumYaw == g.sumYaw + Times(n, b.angles.yaw)
      && r.accounted == (if n == 0 then g.accounted else g.accounted[bi := true])
  {
    ScanMarks(g, bi, b, box, brushes, w);
    ScanPos(g, bi, b, box, brushes, w);
    ScanYaw(g, bi, b, box, brushes, w);
  }

  lemma {:induction false} ScanMarks(g: Gather, bi: nat, b: PropBuild, box: (Vec3, Vec3), brushes: seq<Brush>, w: CombineWorld)
    requires bi < |g.accounted|
    ensures var r := Scan(g, bi, b, box, brushes, w);
      var n := Hits(box, brushes, w);
      && r.s == g.s && r.made == g.made
      && r.group == g.group + seq(n, _ => bi)
      && r.accounted == (if n == 0 then g.accounted else g.accounted[bi := true])
    decreases |brushes|
  {
    if brushes != [] {
      var prefix := brushes[..|brushes| - 1];
      ScanMarks(g, bi, b, box, prefix, w);
      var n1 := Hits(box, prefix, w);
      if Touches(box, brushes[|brushes| - 1], w) {
        assert seq(n1 + 1, _ => bi) == seq(n1, _ => bi) + [bi];
        assert g.accounted[bi := true][bi := true] == g.accounted[bi := true];
      }
    }
  }

  lemma {:induction false} ScanPos(g: Gather, bi: nat, b: PropBuild, box: (Vec3, Vec3), brushes: seq<Brush>, w: CombineWorld)
    requires bi < |g.accounted|
    ensures Scan(g, bi, b, box, brushes, w).sumPos == Add3(g.sumPos, Scale3(Hits(box, brushes, w) as real, b.origin))
    decreases |brushes|
  {
    if brushes != [] {
      var prefix := brushes[..|brushes| - 1];
      ScanPos(g, bi, b, box, prefix, w);
      if Touches(box, brushes[|brushes| - 1], w) {
        SumStep(Scan(g, bi, b, box, prefix, w).sumPos, g.sumPos, b.origin, Hits(box, prefix, w));
      }
    }
  }

  lemma {:induction false} ScanYaw(g: Gather, bi: nat, b: PropBuild, box: (Vec3, Vec3), brushes: seq<Brush>, w: CombineWorld)
    requires bi < |g.accounted|
    ensures Scan(g, bi, b, box, brushes, w).sumYaw == g.sumYaw + Times(Hits(box, brushes, w), b.angles.yaw)
    decreases |brushes|
  {
    if brushes != [] {
      var prefix := brushes[..|brushes| - 1];
      ScanYaw(g, bi, b, box, prefix, w);
      if Touches(box, brushes[|brushes| - 1], w) {
        YawStep(Scan(g, bi, b, box, prefix, w).sumYaw, g.sumYaw, b.angles.yaw, Hits(box, prefix, w));
      }
    }
  }

  /** Adding the origin once more to n copies of it. */
  lemma SumStep(sum: Vec3, start: Vec3, o: Vec3, n: nat)
    requires sum == Add3(start, Scale3(n as real, o))
    ensures Add3(sum, o) == Add3(start, Scale3((n + 1) as real, o))
  {
    OneMore(n, o.x);
    OneMore(n, o.y);
    OneMore(n, o.z);
  }

  /** n copies of y added up. */
  function Times(n: nat, y: real): real
  {
    n as real * y
  }

  /** Adding the yaw once more to n copies of it. */
  lemma YawStep(sum: real, start: real, y: real, n: nat)
    requires sum == start + Times(n, y)
    ensures sum + y == start + Times(n + 1, y)
  {
    OneMore(n, y);
  }

  lemma OneMore(n: nat, y: real)
    ensures n as real * y + y == (n + 1) as real * y
  {
  }

  /** The gathered group against the flags the volume started with: flags
      only get set, and every entry of the group names a build that was not
      accounted for at the start and is accounted for now. */
  predicate MarkedFrom(g: Gather, acc0: seq<bool>)
  {
    && |g.accounted| == |acc0|
    && (forall i :: 0 <= i < |acc0| && acc0[i] ==> g.accounted[i])
    && (forall j :: 0 <= j < |g.group| ==> g.group[j] < |acc0| && !acc0[g.group[j]] && g.accounted[g.group[j]])
  }

  /** The first loop keeps MarkedFrom and only appends to the group: a build
      accounted for earlier, in this volume or before it, never joins. */
  lemma {:induction false} GatheredMarks(g: Gather, keys: seq<nat>, builds: seq<PropBuild>, vars: seq<BuildVars>,
                                         brushes: seq<Brush>, w: CombineWorld, acc0: seq<bool>)
    requires Indexes(keys, |builds|) && |vars| == |builds| && |g.accounted| == |builds|
    requires MarkedFrom(g, acc0)
    ensures var r := Gathered(g, keys, builds, vars, brushes, w);
      MarkedFrom(r, acc0) && g.group <= r.group
    decreases |keys|
  {
    if keys != [] {
      var k := keys[..|keys| - 1];
      GatheredMarks(g, k, builds, vars, brushes, w, acc0);
      var g1 := Gathered(g, k, builds, vars, brushes, w);
      var bi := keys[|keys| - 1];
      if !g1.s.halted && !g1.accounted[bi] {
        var b := builds[bi];
        var hull := CollisionLookup(g1.s.collision, b.modelName, w.lump);
        var g2 := g1.(s := g1.s.(collision := g1.s.collision[CollisionKey(b.modelName) := hull]));
        GatherHullMarks(g2, bi, b, vars[bi], hull, brushes, w, acc0);
      }
    }
  }

  /** One pass of the first loop on a build not yet accounted for. */
  lemma GatherHullMarks(g: Gather, bi: nat, b: PropBuild, v: BuildVars, hull: Option<string>, brushes: seq<Brush>,
                        w: CombineWorld, acc0: seq<bool>)
    requires bi < |g.accounted| && !g.accounted[bi] && MarkedFrom(g, acc0)
    ensures var r := GatherHull(g, bi, b, v, hull, brushes, w);
      MarkedFrom(r, acc0) && g.group <= r.group
  {
    if hull.Some? {
      var box := ScaledBox(b, hull.value, w);
      ScanMarks(g, bi, b, box, brushes, w);
      var r := Scan(g, bi, b, box, brushes, w);
      var n := Hits(box, brushes, w);
      assert r.group == g.group + seq(n, _ => bi);
      forall j | 0 <= j < |r.group|
        ensures r.group[j] < |acc0| && !acc0[r.group[j]] && r.accounted[r.group[j]]
      {
        if j >= |g.group| {
          assert r.group[j] == bi;
        }
      }
    }
  }

  /** The combine loop changes only the two memos and the flags, and only
      sets flags. */
  lemma {:induction false} MixedKeeps(m: Mix, group: seq<nat>, builds: seq<PropBuild>, avgPos: Vec3, yaw: real, w: CombineWorld)
    requires Indexes(group, |builds|) && |m.accounted| == |builds|
    ensures var r := Mixed(m, group, builds, avgPos, yaw, w);
      && r.s == m.s.(qcs := r.s.qcs, smds := r.s.smds)
      && forall i :: 0 <= i < |m.accounted| && m.accounted[i] ==> r.accounted[i]
    decreases |group|
  {
    if group != [] {
      MixedKeeps(m, group[..|group| - 1], builds, avgPos, yaw, w);
    }
  }

  /** A merge only sets flags. */
  lemma MergedMarks(g: Gather, builds: seq<PropBuild>, vars: seq<BuildVars>, w: CombineWorld)
    requires |g.group| >= 2 && Indexes(g.group, |builds|) && |vars| == |builds| && |g.accounted| == |builds|
    ensures var r := Merged(g, builds, vars, w);
      forall i :: 0 <= i < |g.accounted| && g.accounted[i] ==> r.accounted[i]
  {
    MixedKeeps(Mix(g.s, g.accounted, EmptyMesh, EmptyMesh), g.group, builds, MeanPos(g), SnapYaw(MeanYaw(g)), w);
  }

  /** After GroupPropsForVolume, flags set before it are still set, and
      every build of the gathered group was not accounted for before and is
      now, whichever way the group was placed. */
  lemma GroupedMarks(s: St, accounted: seq<bool>, keys: seq<nat>, builds: seq<PropBuild>, vars: seq<BuildVars>,
                     brushes: seq<Brush>, w: CombineWorld)
    requires Indexes(keys, |builds|) && |vars| == |builds| && |accounted| == |builds|
    ensures var g := Gathered(Gather(s, accounted, [], Zero3, 0.0, 0), keys, builds, vars, brushes, w);
      var r := Grouped(s, accounted, keys, builds, vars, brushes, w);
      && (forall i :: 0 <= i < |accounted| && accounted[i] ==> r.accounted[i])
      && (forall j :: 0 <= j < |g.group| ==> g.group[j] < |accounted| && !accounted[g.group[j]] && r.accounted[g.group[j]])
  {
    var g0 := Gather(s, accounted, [], Zero3, 0.0, 0);
    GatheredMarks(g0, keys, builds, vars, brushes, w, accounted);
    GatheredIndexes(g0, keys, builds, vars, brushes, w);
    var g := Gathered(g0, keys, builds, vars, brushes, w);
    if !g.s.halted && |g.group| >= 2 {
      MergedMarks(g, builds, vars, w);
    }
  }

  /** AddStaticPropToLump appends at most one prop, and that one sits at the
      build's origin and angles. */
  lemma RegisteredPlacement(s: St, b: PropBuild, w: CombineWorld)
    ensures var r := Registered(s, b, w);
      var n := |s.lumps.props|;
      && n <= |r.lumps.props| <= n + 1 && r.lumps.props[..n] == s.lumps.props
      && forall i :: n <= i < |r.lumps.props| ==> r.lumps.props[i].origin == b.origin && r.lumps.props[i].angles == b.angles
  {
    var hull := CollisionLookup(s.collision, b.modelName, w.lump);
    if hull.None? || w.lump.leavesOf(hull.value, b.origin, b.angles) == [] {
      RegisterNothing(s.lumps, b, hull, w.lighting, w.lump);
    } else {
      RegisterAppends(s.lumps, b, hull, w.lighting, w.lump);
    }
  }

  /** The merge adds at most one prop to the lump, placed at the members'
      mean origin with angles (0, snapped yaw - 90, 0), whether its model was
      known or has just been compiled; the props already there stay. */
  lemma MergedPlacement(g: Gather, builds: seq<PropBuild>, vars: seq<BuildVars>, w: CombineWorld)
    requires |g.group| >= 2 && Indexes(g.group, |builds|) && |vars| == |builds| && |g.accounted| == |builds|
    ensures var r := Merged(g, builds, vars, w);
      var n := |g.s.lumps.props|;
      && n <= |r.s.lumps.props| <= n + 1 && r.s.lumps.props[..n] == g.s.lumps.props
      && forall i :: n <= i < |r.s.lumps.props| ==>
           r.s.lumps.props[i].origin == MeanPos(g) && r.s.lumps.props[i].angles == GroupAngles(SnapYaw(MeanYaw(g)))
  {
    var avgPos := MeanPos(g);
    var yaw := SnapYaw(MeanYaw(g));
    var key := w.crc(MergeKeyBytes(g.group, builds, avgPos, yaw, w.angleMatrix));
    var first := builds[g.group[0]];
    if key in g.s.combined {
      RegisteredPlacement(g.s, first.(modelName := g.s.combined[key], origin := avgPos, angles := GroupAngles(yaw)), w);
    } else {
      var m := Mixed(Mix(g.s, g.accounted, EmptyMesh, EmptyMesh), g.group, builds, avgPos, yaw, w);
      MixedKeeps(Mix(g.s, g.accounted, EmptyMesh, EmptyMesh), g.group, builds, avgPos, yaw, w);
      var (s1, out) := Compiled(m.s, m.mesh, m.phy, vars[g.group[0]], first, avgPos, GroupAngles(yaw), key, w);
      if out.Some? {
        RegisteredPlacement(m.s, out.value, w);
      }
    }
  }

  /** The merge key ignores the members' scales: two build lists that agree
      on everything but scale give the same bytes, so a group of rescaled
      copies finds the model compiled for the originals. */
  lemma {:induction false} MergeKeyIgnoresScales(group: seq<nat>, builds: seq<PropBuild>, other: seq<PropBuild>,
                                                 avgPos: Vec3, yaw: real, angleMatrix: AngleMatrix)
    requires Indexes(group, |builds|) && |other| == |builds|
    requires forall i :: 0 <= i < |builds| ==> other[i] == builds[i].(scale := other[i].scale)
    ensures MergeKeyBytes(group, other, avgPos, yaw, angleMatrix) == MergeKeyBytes(group, builds, avgPos, yaw, angleMatrix)
    decreases |group|
  {
    if group != [] {
      MergeKeyIgnoresScales(group[..|group| - 1], builds, other, avgPos, yaw, angleMatrix);
      var bi := group[|group| - 1];
      MemberBytesIgnoreScale(builds[bi], other[bi], avgPos, yaw, angleMatrix);
    }
  }

  /** A member's key bytes do not depend on its scale. */
  lemma MemberBytesIgnoreScale(a: PropBuild, b: PropBuild, avgPos: Vec3, yaw: real, angleMatrix: AngleMatrix)
    requires b == a.(scale := b.scale)
    ensures MemberKeyBytes(b, Place(b, avgPos, yaw, angleMatrix)) == MemberKeyBytes(a, Place(a, avgPos, yaw, angleMatrix))
  {
    assert b.origin == a.origin && b.angles == a.angles;
    MemberKeyIgnoresScale(a, Place(a, avgPos, yaw, angleMatrix), b.scale);
  }

  /** The checksummed model list of a group whose member names are all
      readable and free of separators. */
  function MemberModels(group: seq<nat>, builds: seq<PropBuild>, checksums: Checksums): Option<seq<(string, u32)>>
    requires Indexes(group, |builds|)
  {
    WithChecksums(Distinct(MemberNames(group, builds), {}), checksums)
  }

  lemma MemberModelsClean(group: seq<nat>, builds: seq<PropBuild>, checksums: Checksums)
    requires Indexes(group, |builds|)
    requires forall j :: 0 <= j < |group| ==>
      var name := builds[group[j]].modelName; checksums(name).Some? && |name| > 0 && Clean(name)
    ensures MemberModels(group, builds, checksums).Some? && CleanModels(MemberModels(group, builds, checksums).value)
  {
    var names := MemberNames(group, builds);
    var distinct := Distinct(names, {});
    forall i | 0 <= i < |distinct|
      ensures checksums(distinct[i]).Some? && |distinct[i]| > 0 && Clean(distinct[i])
    {
      var j :| 0 <= j < |names| && names[j] == distinct[i];
    }
  }

  /** A merge that compiles, when every member's checksum can be read,
      appends one cache line for the group's distinct models and maps the
      key to the compiled model. */
  lemma MergedRecords(g: Gather, builds: seq<PropBuild>, vars: seq<BuildVars>, w: CombineWorld)
    requires |g.group| >= 2 && Indexes(g.group, |builds|) && |vars| == |builds| && |g.accounted| == |builds|
    requires w.crc(MergeKeyBytes(g.group, builds, MeanPos(g), SnapYaw(MeanYaw(g)), w.angleMatrix)) !in g.s.combined
    requires !Merged(g, builds, vars, w).s.halted
    requires MemberModels(g.group, builds, w.checksums).Some?
    ensures var r := Merged(g, builds, vars, w);
      var key := w.crc(MergeKeyBytes(g.group, builds, MeanPos(g), SnapYaw(MeanYaw(g)), w.angleMatrix));
      var path := CompiledName(w.mapBase, key);
      && r.s.cache == g.s.cache + [CacheLine(MemberModels(g.group, builds, w.checksums).value, key, path)]
      && r.s.combined == g.s.combined[key := path]
  {
    var avgPos := MeanPos(g);
    var yaw := SnapYaw(MeanYaw(g));
    var key := w.crc(MergeKeyBytes(g.group, builds, avgPos, yaw, w.angleMatrix));
    var m := Mixed(Mix(g.s, g.accounted, EmptyMesh, EmptyMesh), g.group, builds, avgPos, yaw, w);
    MixedKeeps(Mix(g.s, g.accounted, EmptyMesh, EmptyMesh), g.group, builds, avgPos, yaw, w);
    MergeCompiledRecords(m.s, m.mesh, m.phy, vars[g.group[0]], builds[g.group[0]], avgPos, yaw, key, MemberNames(g.group, builds), w);
  }

  lemma MergeCompiledRecords(s: St, mesh: MeshData, phy: MeshData, v: BuildVars, first: PropBuild, avgPos: Vec3, yaw: real,
                             key: u32, names: seq<string>, w: CombineWorld)
    requires !MergeCompiled(s, mesh, phy, v, first, avgPos, yaw, key, names, w).halted
    requires WithChecksums(Distinct(names, {}), w.checksums).Some?
    ensures var r := MergeCompiled(s, mesh, phy, v, first, avgPos, yaw, key, names, w);
      var path := CompiledName(w.mapBase, key);
      && r.cache == s.cache + [CacheLine(WithChecksums(Distinct(names, {}), w.checksums).value, key, path)]
      && r.combined == s.combined[key := path]
  {
  }

  /** The line a merge writes is read back by a later run's InitCache: it is
      kept, mapping the key to the compiled model, exactly when every
      distinct member model's checksum is unchanged and the compiled model
      exists. */
  lemma MergeLineReadBack(g: Gather, builds: seq<PropBuild>, vars: seq<BuildVars>, w: CombineWorld,
                          later: Checksums, fileExists: string -> bool)
    requires |g.group| >= 2 && Indexes(g.group, |builds|) && |vars| == |builds| && |g.accounted| == |builds|
    requires w.crc(MergeKeyBytes(g.group, builds, MeanPos(g), SnapYaw(MeanYaw(g)), w.angleMatrix)) !in g.s.combined
    requires !Merged(g, builds, vars, w).s.halted
    requires forall j :: 0 <= j < |g.group| ==>
      var name := builds[g.group[j]].modelName; w.checksums(name).Some? && |name| > 0 && Clean(name)
    requires Clean(w.mapBase)
    ensures var r := Merged(g, builds, vars, w);
      var key := w.crc(MergeKeyBytes(g.group, builds, MeanPos(g), SnapYaw(MeanYaw(g)), w.angleMatrix));
      var path := CompiledName(w.mapBase, key);
      var models := MemberModels(g.group, builds, w.checksums);
      && models.Some?
      && |r.s.cache| == |g.s.cache| + 1 && r.s.combined == g.s.combined[key := path]
      && ParseLine(r.s.cache[|g.s.cache|], later, fileExists) ==
         if ChecksumsMatch(models.value, later) && fileExists(path)
         then Accepted(key, path, |r.s.cache[|g.s.cache|]|)
         else Rejected
  {
    var key := w.crc(MergeKeyBytes(g.group, builds, MeanPos(g), SnapYaw(MeanYaw(g)), w.angleMatrix));
    var path := CompiledName(w.mapBase, key);
    MemberModelsClean(g.group, builds, w.checksums);
    MergedRecords(g, builds, vars, w);
    CompiledNameClean(w.mapBase, key);
    CacheLineRoundTrip(MemberModels(g.group, builds, w.checksums).value, key, path, later, fileExists);
  }
}
