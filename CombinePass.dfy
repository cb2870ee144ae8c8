/**
 * The combine pass of StaticPropAdditions.cpp in place: a Combiner holds the
 * lumps, the QC and mesh memos, the key-to-model map, the cache file's
 * appended lines and the accounted-for flags, and its methods follow
 * AddStaticPropToLumpWithScaling, ScalePropAndAddToLump, CompileAndAddToLump
 * and GroupPropsForVolume loop by loop. Each is proved to leave the state the
 * matching function of PropCombine describes.
 */
module CombinePass {
  import opened Common
  import opened StaticPropLump
  import opened QcParser
  import opened Mesh
  import opened Grouping
  import opened BuildCache
  import opened PropCombine

  class Combiner {
    const lumps: PropLumps
    const w: CombineWorld
    var qcs: map<string, ParsedQc>
    var smds: map<string, LoadedSmds>
    var combinedProps: map<u32, string>
    var cacheLines: seq<string>
    var accounted: seq<bool>
    var halted: bool

    function State(): St
      reads this, lumps
    {
      St(lumps.Contents(), lumps.collisionCache, qcs, smds, combinedProps, cacheLines, halted)
    }

    ghost predicate Valid()
      reads this, lumps
    {
      lumps.Valid() && lumps.lightingInfo == w.lighting
    }

    constructor(lumps: PropLumps, w: CombineWorld, qcs: map<string, ParsedQc>, combinedProps: map<u32, string>,
                accounted: seq<bool>)
      requires lumps.Valid() && lumps.lightingInfo == w.lighting
      ensures Valid() && this.lumps == lumps && this.w == w
      ensures State() == St(lumps.Contents(), lumps.collisionCache, qcs, map[], combinedProps, [], false)
      ensures this.accounted == accounted
    {
      this.lumps := lumps;
      this.w := w;
      this.qcs := qcs;
      this.smds := map[];
      this.combinedProps := combinedProps;
      this.cacheLines := [];
      this.accounted := accounted;
      this.halted := false;
    }

    /** AddStaticPropToLump. */
    method AddToLump(b: PropBuild)
      requires Valid()
      modifies lumps
      ensures Valid() && State() == Registered(old(State()), b, w)
    {
      lumps.AddStaticPropToLump(b, w.lump);
    }

    /** DecompileModel: crowbar, then the QC parser on the decompiled script;
        an accepted descriptor is inserted under its own model path, and the
        entry filed there is returned. */
    method DecompileModel(name: string) returns (qc: Option<ParsedQc>)
      modifies this
      ensures qc.None? <==> Decompile(name, w).None?
      ensures qc.Some? ==> (qcs, qc.value) == FileQc(old(qcs), Decompile(name, w).value)
      ensures qc.None? ==> qcs == old(qcs)
      ensures smds == old(smds) && combinedProps == old(combinedProps) && cacheLines == old(cacheLines)
      ensures accounted == old(accounted) && halted == old(halted)
    {
      if !w.crowbar(name) {
        return None;
      }
      var newQC, retVal := ParseQC(DecompDir(w.gameDir, name), w.decompiledQc(name), w.readFloat);
      if !retVal {
        return None;
      }
      var key := ToLower(newQC.path.value);
      if key !in qcs {
        qcs := qcs[key := newQC];
      }
      qc := Some(qcs[key]);
    }

    /** dQCs.Find(name), falling back to DecompileModel. */
    method FindOrDecompile(name: string) returns (qc: Option<ParsedQc>)
      modifies this
      ensures (State(), qc) == QcLookup(old(State()), name, w)
      ensures accounted == old(accounted)
    {
      var key := ToLower(name);
      if key in qcs {
        return Some(qcs[key]);
      }
      qc := DecompileModel(name);
    }

    /** dLoadedSMDs.Find(name), loading the descriptor's meshes on a miss. */
    method FindOrLoadSmds(name: string, qc: ParsedQc) returns (m: LoadedSmds)
      modifies this
      ensures (State(), m) == SmdLookup(old(State()), name, qc, w)
      ensures accounted == old(accounted)
    {
      var key := ToLower(name);
      if key in smds {
        return smds[key];
      }
      var refSMD := w.loadSmd(w.gameDir + qc.refSMD.value);
      var phySMD: Smd := EmptyMesh;
      if qc.phySMD.Some? {
        phySMD := w.loadSmd(w.gameDir + qc.phySMD.value);
      }
      m := LoadedSmds(refSMD, phySMD);
      smds := smds[key := m];
    }

    /** CompileAndAddToLump. */
    method CompileAndAddToLump(mesh: MeshData, phy: MeshData, vars: BuildVars, b: PropBuild,
                               origin: Vec3, angles: Angles, crc: u32) returns (out: Option<PropBuild>)
      requires Valid()
      modifies this, lumps
      ensures Valid()
      ensures (State(), out) == Compiled(old(State()), mesh, phy, vars, b, origin, angles, crc, w)
      ensures accounted == old(accounted)
    {
      var fullModelPath := "maps\\" + w.mapBase + "\\" + Hex(crc) + ".mdl";
      if !w.studiomdl(mesh, phy, vars, fullModelPath) {
        halted := true;
        return None;
      }
      var newBuild := b.(modelName := "models\\" + fullModelPath, origin := origin, angles := angles);
      AddToLump(newBuild);
      out := Some(newBuild);
    }

    /** The cache line and the key map entry that follow a compile. */
    method RecordCompiled(line: Option<string>, crc: u32, path: string)
      modifies this
      ensures State() == Recorded(old(State()), line, crc, path)
      ensures accounted == old(accounted)
    {
      if line.Some? {
        cacheLines := cacheLines + [line.value];
      }
      combinedProps := combinedProps[crc := path];
    }

    /** A loaded mesh combined, scaled, into a fresh zeroed s_source_t. */
    method ScaledMesh(m: Smd, scale: real) returns (d: MeshData)
      ensures d == Scaled(m, scale, w.angleMatrix)
    {
      var scaled := new MeshSource(EmptyMesh);
      scaled.CombineMeshes(m, Zero3, MinusQuarterTurn, scale, w.angleMatrix);
      d := scaled.Contents();
    }

    /** scaledMesh and scaledCollisionMesh of ScalePropAndAddToLump. */
    method ScaleMeshes(loaded: LoadedSmds, qc: ParsedQc, scale: real) returns (meshes: (MeshData, MeshData))
      ensures meshes == ScaledMeshes(loaded, qc, scale, w.angleMatrix)
    {
      var scaledMesh := ScaledMesh(loaded.ref, CombinedScale(qc.refScale, scale));
      var scaledCollisionMesh: MeshData := EmptyMesh;
      if |loaded.phy.vertex| != 0 {
        scaledCollisionMesh := ScaledMesh(loaded.phy, CombinedScale(qc.phyScale, scale));
      }
      meshes := (scaledMesh, scaledCollisionMesh);
    }

    /** ScalePropAndAddToLump. */
    method ScalePropAndAddToLump(b: PropBuild, vars: BuildVars, crc: u32)
      requires Valid()
      modifies this, lumps
      ensures Valid() && State() == ScaleProp(old(State()), b, vars, crc, w)
      ensures accounted == old(accounted)
    {
      var qc := FindOrDecompile(b.modelName);
      if qc.None? {
        AddToLump(b);
        return;
      }
      ScaleLoadedAndAddToLump(b, vars, crc, qc.value);
    }

    /** The rest of ScalePropAndAddToLump once the descriptor is known. */
    method ScaleLoadedAndAddToLump(b: PropBuild, vars: BuildVars, crc: u32, qc: ParsedQc)
      requires Valid()
      modifies this, lumps
      ensures Valid() && State() == ScaleLoaded(old(State()), b, vars, crc, qc, w)
      ensures accounted == old(accounted)
    {
      var loaded := FindOrLoadSmds(b.modelName, qc);
      ghost var s2 := State();
      var meshes := ScaleMeshes(loaded, qc, b.scale);
      var outBuild := CompileAndAddToLump(meshes.0, meshes.1, vars, b, b.origin, b.angles, crc);
      if outBuild.Some? {
        RecordCompiled(SingleCacheLine(b.modelName, crc, outBuild.value.modelName, w.checksums), crc, outBuild.value.modelName);
      }
      assert State() == CompileScaled(s2, b, vars, crc, meshes, w);
    }

    /** AddStaticPropToLumpWithScaling. */
    method AddStaticPropToLumpWithScaling(b: PropBuild, vars: BuildVars)
      requires Valid()
      modifies this, lumps
      ensures Valid() && State() == Rescaled(old(State()), b, vars, w)
      ensures accounted == old(accounted)
    {
      if -0.0001 < b.scale - 1.0 < 0.0001 {
        AddToLump(b);
        return;
      }
      var crc := w.crc(StrBytes(b.modelName) + IntBytes(b.skin) + w.floatBits(b.scale) + IntBytes(b.solid));
      if crc in combinedProps {
        var newBuild := b.(modelName := combinedProps[crc]);
        AddToLump(newBuild);
        return;
      }
      ScalePropAndAddToLump(b, vars, crc);
    }

    /** The brush loop of GroupPropsForVolume for build bi: every brush whose
        bounds meet the box and whose clip is non-empty appends the build to
        the group once more. */
    method ScanBrushes(bi: nat, b: PropBuild, mins: Vec3, maxs: Vec3, brushes: seq<Brush>, ghost g0: Gather,
                       group: seq<nat>, sumPos: Vec3, sumYaw: real)
      returns (localGroup: seq<nat>, avgPos: Vec3, avgYaw: real)
      requires bi < |accounted| && g0 == Gather(State(), accounted, group, sumPos, sumYaw, g0.made)
      modifies this
      ensures Scan(g0, bi, b, (mins, maxs), brushes, w) == Gather(State(), accounted, localGroup, avgPos, avgYaw, g0.made)
    {
      localGroup, avgPos, avgYaw := group, sumPos, sumYaw;
      for j := 0 to |brushes|
        invariant |accounted| == |g0.accounted|
        invariant Scan(g0, bi, b, (mins, maxs), brushes[..j], w) == Gather(State(), accounted, localGroup, avgPos, avgYaw, g0.made)
      {
        assert brushes[..j + 1][..j] == brushes[..j];
        if BoxesIntersect(mins, maxs, brushes[j].mins, brushes[j].maxs) && w.clips(mins, maxs, brushes[j]) {
          localGroup := localGroup + [bi];
          avgPos := Add3(avgPos, b.origin);
          avgYaw := avgYaw + b.angles.yaw;
          accounted := accounted[bi := true];
        }
      }
      assert brushes[..|brushes|] == brushes;
    }

    /** One pass of GroupPropsForVolume's first loop. */
    method CollectProp(bi: nat, builds: seq<PropBuild>, vars: seq<BuildVars>, brushes: seq<Brush>,
                       group: seq<nat>, sumPos: Vec3, sumYaw: real, made: nat)
      returns (localGroup: seq<nat>, avgPos: Vec3, avgYaw: real, numPropsMade: nat)
      requires Valid() && bi < |builds| && |vars| == |builds| && |accounted| == |builds|
      modifies this, lumps
      ensures Valid() && |accounted| == |builds|
      ensures GatherOne(Gather(old(State()), old(accounted), group, sumPos, sumYaw, made), bi, builds, vars, brushes, w)
        == Gather(State(), accounted, localGroup, avgPos, avgYaw, numPropsMade)
    {
      localGroup, avgPos, avgYaw, numPropsMade := group, sumPos, sumYaw, made;
      if halted || accounted[bi] {
        return;
      }
      var hull := lumps.GetCollisionModel(builds[bi].modelName, w.lump);
      localGroup, avgPos, avgYaw, numPropsMade := CollectWithHull(bi, builds[bi], vars[bi], hull, brushes, group, sumPos, sumYaw, made);
    }

    /** The rest of a pass once the hull is known: without one the prop is
        placed on its own, marked and counted; with one its scaled bounds
        are intersected with the brushes. */
    method CollectWithHull(bi: nat, b: PropBuild, v: BuildVars, hull: Option<string>, brushes: seq<Brush>,
                           group: seq<nat>, sumPos: Vec3, sumYaw: real, made: nat)
      returns (localGroup: seq<nat>, avgPos: Vec3, avgYaw: real, numPropsMade: nat)
      requires Valid() && bi < |accounted|
      modifies this, lumps
      ensures Valid() && |accounted| == |old(accounted)|
      ensures GatherHull(Gather(old(State()), old(accounted), group, sumPos, sumYaw, made), bi, b, v, hull, brushes, w)
        == Gather(State(), accounted, localGroup, avgPos, avgYaw, numPropsMade)
    {
      localGroup, avgPos, avgYaw, numPropsMade := group, sumPos, sumYaw, made;
      if hull.None? {
        AddStaticPropToLumpWithScaling(b, v);
        accounted := accounted[bi := true];
        numPropsMade := numPropsMade + 1;
        return;
      }
      var (mins, maxs) := w.bounds(hull.value, b.origin, b.angles);
      mins := Add3(b.origin, Scale3(b.scale, Sub3(mins, b.origin)));
      maxs := Add3(b.origin, Scale3(b.scale, Sub3(maxs, b.origin)));
      assert (mins, maxs) == ScaledBox(b, hull.value, w);
      ghost var g1 := Gather(State(), accounted, group, sumPos, sumYaw, made);
      localGroup, avgPos, avgYaw := ScanBrushes(bi, b, mins, maxs, brushes, g1, group, sumPos, sumYaw);
    }

    /** The CRC loop: each member's placement, name and skin, the constant
        scale 1 and solid, fed into one checksum. */
    method MergeKey(group: seq<nat>, builds: seq<PropBuild>, avgPos: Vec3, avgYaw: real, yawRot: Matrix34)
      returns (propPosCRC: u32)
      requires Indexes(group, |builds|) && yawRot == w.angleMatrix(Angles(0.0, -avgYaw, 0.0))
      ensures propPosCRC == w.crc(MergeKeyBytes(group, builds, avgPos, avgYaw, w.angleMatrix))
    {
      var fed: seq<byte> := [];
      for localGroupInd := 0 to |group|
        invariant fed == MergeKeyBytes(group[..localGroupInd], builds, avgPos, avgYaw, w.angleMatrix)
      {
        assert group[..localGroupInd + 1][..localGroupInd] == group[..localGroupInd];
        var localBuild := builds[group[localGroupInd]];
        var place, _, _ := QuantizePlacement(localBuild, avgPos, avgYaw, yawRot, w.angleMatrix);
        fed := fed + MemberKeyBytes(localBuild, place);
      }
      assert group[..|group|] == group;
      propPosCRC := w.crc(fed);
    }

    /** One pass of the combine loop: the member's meshes are combined into
        the group's at its quantised placement, and the member is marked. */
    method MixMember(bi: nat, builds: seq<PropBuild>, avgPos: Vec3, avgYaw: real, yawRot: Matrix34,
                     mesh: MeshSource, phy: MeshSource, ghost m: Mix)
      requires mesh.Valid() && phy.Valid() && mesh != phy
      requires bi < |builds| && |accounted| == |builds| && yawRot == w.angleMatrix(Angles(0.0, -avgYaw, 0.0))
      requires m == Mix(State(), accounted, mesh.Contents(), phy.Contents())
      modifies this, mesh, phy
      ensures mesh.Valid() && phy.Valid()
      ensures Mix(State(), accounted, mesh.Contents(), phy.Contents()) == MixOne(m, bi, builds, avgPos, avgYaw, w)
    {
      var qc := FindOrDecompile(builds[bi].modelName);
      if qc.None? {
        return; // the member is left out of the combined model
      }
      MixLoadedMember(bi, builds, qc.value, avgPos, avgYaw, yawRot, mesh, phy);
      accounted := accounted[bi := true];
    }

    /** The rest of a pass of the combine loop once the descriptor is known. */
    method MixLoadedMember(bi: nat, builds: seq<PropBuild>, qc: ParsedQc, avgPos: Vec3, avgYaw: real, yawRot: Matrix34,
                           mesh: MeshSource, phy: MeshSource)
      requires mesh.Valid() && phy.Valid() && mesh != phy
      requires bi < |builds| && |accounted| == |builds| && yawRot == w.angleMatrix(Angles(0.0, -avgYaw, 0.0))
      modifies this, mesh, phy
      ensures mesh.Valid() && phy.Valid()
      ensures Mix(State(), accounted, mesh.Contents(), phy.Contents())
        == MixLoaded(Mix(old(State()), old(accounted), old(mesh.Contents()), old(phy.Contents())), bi, builds, qc, avgPos, avgYaw, w)
    {
      var loaded := FindOrLoadSmds(builds[bi].modelName, qc);
      CombineMember(builds[bi], loaded, qc, avgPos, avgYaw, yawRot, mesh, phy);
    }

    /** The member's quantised placement and the two CombineMeshes calls of
        the combine loop. */
    method CombineMember(b: PropBuild, loaded: LoadedSmds, qc: ParsedQc, avgPos: Vec3, avgYaw: real, yawRot: Matrix34,
                         mesh: MeshSource, phy: MeshSource)
      requires mesh.Valid() && phy.Valid() && mesh != phy && yawRot == w.angleMatrix(Angles(0.0, -avgYaw, 0.0))
      modifies mesh, phy
      ensures mesh.Valid() && phy.Valid()
      ensures var p := Place(b, avgPos, avgYaw, w.angleMatrix);
        (mesh.Contents(), phy.Contents())
        == MemberMeshes(old(mesh.Contents()), old(phy.Contents()), loaded, qc, PlacedOrigin(p), PlacedAngles(p), b.scale, w.angleMatrix)
    {
      var _, additionOrigin, additionAngle := QuantizePlacement(b, avgPos, avgYaw, yawRot, w.angleMatrix);
      mesh.CombineMeshes(loaded.ref, additionOrigin, additionAngle, CombinedScale(qc.refScale, b.scale), w.angleMatrix);
      if |loaded.phy.vertex| != 0 {
        phy.CombineMeshes(loaded.phy, additionOrigin, additionAngle, CombinedScale(qc.phyScale, b.scale), w.angleMatrix);
      }
    }

    /** The combine loop over the group, into two fresh zeroed meshes. */
    method CombineGroup(group: seq<nat>, builds: seq<PropBuild>, avgPos: Vec3, avgYaw: real, yawRot: Matrix34)
      returns (combinedMesh: MeshData, combinedCollisionMesh: MeshData)
      requires Indexes(group, |builds|) && |accounted| == |builds| && yawRot == w.angleMatrix(Angles(0.0, -avgYaw, 0.0))
      modifies this
      ensures Mix(State(), accounted, combinedMesh, combinedCollisionMesh)
        == Mixed(Mix(old(State()), old(accounted), EmptyMesh, EmptyMesh), group, builds, avgPos, avgYaw, w)
    {
      var mesh := new MeshSource(EmptyMesh);
      var phy := new MeshSource(EmptyMesh);
      ghost var m0 := Mix(State(), accounted, EmptyMesh, EmptyMesh);
      for localGroupInd := 0 to |group|
        invariant mesh.Valid() && phy.Valid() && |accounted| == |builds|
        invariant Mix(State(), accounted, mesh.Contents(), phy.Contents()) == Mixed(m0, group[..localGroupInd], builds, avgPos, avgYaw, w)
      {
        assert group[..localGroupInd + 1][..localGroupInd] == group[..localGroupInd];
        MixMember(group[localGroupInd], builds, avgPos, avgYaw, yawRot, mesh, phy,
          Mixed(m0, group[..localGroupInd], builds, avgPos, avgYaw, w));
      }
      assert group[..|group|] == group;
      combinedMesh, combinedCollisionMesh := mesh.Contents(), phy.Contents();
    }

    /** The merge of a group of two or more: the means, the snapped yaw, the
        key; a known key registers the stored model at the group's placement,
        otherwise the members are combined, compiled and recorded. */
    method MergeGroup(localGroup: seq<nat>, sumPos: Vec3, sumYaw: real, numPropsMade: nat,
                      builds: seq<PropBuild>, vars: seq<BuildVars>)
      requires Valid() && |localGroup| >= 2 && Indexes(localGroup, |builds|)
      requires |vars| == |builds| && |accounted| == |builds|
      modifies this, lumps
      ensures Valid()
      ensures Outcome(State(), accounted, numPropsMade)
        == Merged(Gather(old(State()), old(accounted), localGroup, sumPos, sumYaw, numPropsMade), builds, vars, w)
    {
      var n := |localGroup|;
      var avgPos := Vec3(Mean(sumPos.x, n), Mean(sumPos.y, n), Mean(sumPos.z, n));
      var avgYaw := Mean(sumYaw, n);
      avgYaw := SnapYaw(avgYaw);
      var yawRot := w.angleMatrix(Angles(0.0, -avgYaw, 0.0));
      var propPosCRC := MergeKey(localGroup, builds, avgPos, avgYaw, yawRot);
      var first := builds[localGroup[0]];
      if propPosCRC in combinedProps {
        AddToLump(first.(modelName := combinedProps[propPosCRC], origin := avgPos, angles := GroupAngles(avgYaw)));
        return;
      }
      var combinedMesh, combinedCollisionMesh := CombineGroup(localGroup, builds, avgPos, avgYaw, yawRot);
      var createdBuild := CompileAndAddToLump(combinedMesh, combinedCollisionMesh, vars[localGroup[0]], first,
        avgPos, GroupAngles(avgYaw), propPosCRC);
      if createdBuild.Some? {
        var path := createdBuild.value.modelName;
        RecordCompiled(GroupCacheLineOf(MemberNames(localGroup, builds), propPosCRC, path, w.checksums), propPosCRC, path);
      }
    }

    /** GroupPropsForVolume: gather the key group's props inside the volume,
        then place a lone member alone and merge two or more. The count
        returned is the one before the final post-increment. */
    method GroupPropsForVolume(keys: seq<nat>, builds: seq<PropBuild>, vars: seq<BuildVars>, brushes: seq<Brush>)
      returns (numPropsMade: nat)
      requires Valid() && Indexes(keys, |builds|) && |vars| == |builds| && |accounted| == |builds|
      modifies this, lumps
      ensures Valid()
      ensures Outcome(State(), accounted, numPropsMade) == Grouped(old(State()), old(accounted), keys, builds, vars, brushes, w)
    {
      var localGroup: seq<nat> := [];
      var avgPos := Zero3;
      var avgYaw := 0.0;
      numPropsMade := 0;
      ghost var g0 := Gather(State(), accounted, [], Zero3, 0.0, 0);
      for propInd := 0 to |keys|
        invariant Valid() && |accounted| == |builds|
        invariant Gathered(g0, keys[..propInd], builds, vars, brushes, w)
          == Gather(State(), accounted, localGroup, avgPos, avgYaw, numPropsMade)
      {
        assert keys[..propInd + 1][..propInd] == keys[..propInd];
        localGroup, avgPos, avgYaw, numPropsMade :=
          CollectProp(keys[propInd], builds, vars, brushes, localGroup, avgPos, avgYaw, numPropsMade);
      }
      assert keys[..|keys|] == keys;
      GatheredIndexes(g0, keys, builds, vars, brushes, w);
      if halted || |localGroup| < 1 {
        return;
      }
      if |localGroup| == 1 {
        AddStaticPropToLumpWithScaling(builds[localGroup[0]], vars[localGroup[0]]);
        accounted := accounted[localGroup[0] := true];
        return;
      }
      MergeGroup(localGroup, avgPos, avgYaw, numPropsMade, builds, vars);
    }
  }
}
