/**
 * EmitStaticProps of staticprop.cpp, with the prop-combine passes enabled:
 * the entity loop that turns prop_static entities into builds and collects
 * the combine volumes, the loop that files each build under its grouping
 * key, the volume-by-group loop that calls GroupPropsForVolume, and the
 * closing loop that adds every build the volumes did not account for.
 * Each loop is a method proved equal to a function of this module; the
 * lemmas at the end state what those functions guarantee.
 */
module Emit {
  import opened Common
  import opened StaticPropLump
  import opened Grouping
  import opened PropCombine
  import opened CombinePass

  // The entity keys and class names the pass reads.
  const KEY_ANGLES: string := "angles"
  const KEY_CLASSNAME: string := "classname"
  const KEY_DISABLESELFSHADOWING: string := "disableselfshadowing"
  const KEY_DISABLESHADOWS: string := "disableshadows"
  const KEY_DISABLEVERTEXLIGHTING: string := "disablevertexlighting"
  const KEY_FADEMAXDIST: string := "fademaxdist"
  const KEY_FADEMINDIST: string := "fademindist"
  const KEY_FADESCALE: string := "fadescale"
  const KEY_GENERATELIGHTMAPS: string := "generatelightmaps"
  const KEY_IGNORENORMALS: string := "ignorenormals"
  const KEY_LIGHTINGORIGIN: string := "lightingorigin"
  const KEY_LIGHTMAPRESOLUTIONX: string := "lightmapresolutionx"
  const KEY_LIGHTMAPRESOLUTIONY: string := "lightmapresolutiony"
  const KEY_MAXDXLEVEL: string := "maxdxlevel"
  const KEY_MINDXLEVEL: string := "mindxlevel"
  const KEY_MODEL: string := "model"
  const KEY_ORIGIN: string := "origin"
  const KEY_SCREENSPACEFADE: string := "screenspacefade"
  const KEY_SKIN: string := "skin"
  const KEY_SOLID: string := "solid"
  const KEY_TARGETNAME: string := "targetname"
  const CLASS_COMBINE_VOLUME: string := "comp_propcombine_volume"
  const CLASS_STATIC_PROP: string := "static_prop"
  const CLASS_PROP_STATIC: string := "prop_static"
  const CLASS_INFO_LIGHTING: string := "info_lighting"

  /** An entity, by its key/value pairs. */
  datatype Entity = Entity(keys: map<string, string>)

  function ValueForKey(e: Entity, key: string): string
  {
    if key in e.keys then e.keys[key] else ""
  }

  /** The text-to-number readers behind IntForKey (atoi), FloatForKey
      (atof), GetVectorForKey and GetAnglesForKey (three floats each). */
  datatype KeyReaders = KeyReaders(atoi: string -> int, atof: string -> real, vector: string -> Vec3,
                                   angles: string -> Angles)

  function IntKey(e: Entity, rd: KeyReaders, key: string): int
  {
    rd.atoi(ValueForKey(e, key))
  }

  function FloatKey(e: Entity, rd: KeyReaders, key: string): real
  {
    rd.atof(ValueForKey(e, key))
  }

  /** The (unsigned short) conversion of the DX level keys. */
  function DxLevel(n: int): u16
  {
    n % 0x1_0000
  }

  /** flag when the condition holds, no bits otherwise. */
  function BitIf(on: bool, flag: Flags): Flags
  {
    if on then flag else 0
  }

  /** The m_Flags of a build: each of five keys that reads 1 sets its bit,
      and a generatelightmaps of 0 sets NO_PER_TEXEL_LIGHTING. */
  function EntityFlags(e: Entity, rd: KeyReaders): Flags
  {
    BitIf(IntKey(e, rd, KEY_IGNORENORMALS) == 1, IGNORE_NORMALS)
    | BitIf(IntKey(e, rd, KEY_DISABLESHADOWS) == 1, NO_SHADOW)
    | BitIf(IntKey(e, rd, KEY_DISABLEVERTEXLIGHTING) == 1, NO_PER_VERTEX_LIGHTING)
    | BitIf(IntKey(e, rd, KEY_DISABLESELFSHADOWING) == 1, NO_SELF_SHADOWING)
    | BitIf(IntKey(e, rd, KEY_SCREENSPACEFADE) == 1, SCREEN_SPACE_FADE)
    | BitIf(IntKey(e, rd, KEY_GENERATELIGHTMAPS) == 0, NO_PER_TEXEL_LIGHTING)
  }

  /** The build of a prop_static entity. m_Scale is not written by the
      entity loop; scale is whatever it holds. */
  function EntityToBuild(e: Entity, rd: KeyReaders, scale: real): PropBuild
  {
    var maxDist := FloatKey(e, rd, KEY_FADEMAXDIST);
    var fades := maxDist > 0.0;
    var minDist := FloatKey(e, rd, KEY_FADEMINDIST);
    var lit := IntKey(e, rd, KEY_GENERATELIGHTMAPS) != 0;
    PropBuild(
      ValueForKey(e, KEY_MODEL),
      ValueForKey(e, KEY_LIGHTINGORIGIN),
      rd.vector(ValueForKey(e, KEY_ORIGIN)),
      rd.angles(ValueForKey(e, KEY_ANGLES)),
      IntKey(e, rd, KEY_SOLID),
      IntKey(e, rd, KEY_SKIN),
      EntityFlags(e, rd),
      if !fades then 0.0 else if minDist < 0.0 then maxDist else minDist,
      maxDist,
      fades,
      if ValueForKey(e, KEY_FADESCALE) != "" then FloatKey(e, rd, KEY_FADESCALE) else 1.0,
      DxLevel(IntKey(e, rd, KEY_MINDXLEVEL)),
      DxLevel(IntKey(e, rd, KEY_MAXDXLEVEL)),
      if lit then IntKey(e, rd, KEY_LIGHTMAPRESOLUTIONX) else 0,
      if lit then IntKey(e, rd, KEY_LIGHTMAPRESOLUTIONY) else 0,
      scale)
  }

  predicate IsVolume(e: Entity)
  {
    ValueForKey(e, KEY_CLASSNAME) == CLASS_COMBINE_VOLUME
  }

  predicate IsProp(e: Entity)
  {
    ValueForKey(e, KEY_CLASSNAME) == CLASS_STATIC_PROP || ValueForKey(e, KEY_CLASSNAME) == CLASS_PROP_STATIC
  }

  /** The entity loop: the builds of the prop entities and the indexes of the
      combine volumes, both in entity order. */
  function Collected(entities: seq<Entity>, rd: KeyReaders, scaleOf: nat -> real): (r: (seq<PropBuild>, seq<nat>))
    ensures |r.0| + |r.1| <= |entities|
  {
    if entities == [] then ([], [])
    else
      var i := |entities| - 1;
      var (builds, volumes) := Collected(entities[..i], rd, scaleOf);
      if IsVolume(entities[i]) then (builds, volumes + [i])
      else if IsProp(entities[i]) then (builds + [EntityToBuild(entities[i], rd, scaleOf(i))], volumes)
      else (builds, volumes)
  }

  method CollectEntities(entities: seq<Entity>, rd: KeyReaders, scaleOf: nat -> real)
    returns (vecBuilds: seq<PropBuild>, vecPropCombineVolumes: seq<nat>, vecBuildAccountedFor: seq<bool>)
    ensures (vecBuilds, vecPropCombineVolumes) == Collected(entities, rd, scaleOf)
    ensures vecBuildAccountedFor == seq(|vecBuilds|, _ => false)
  {
    vecBuilds, vecPropCombineVolumes, vecBuildAccountedFor := [], [], [];
    for i := 0 to |entities|
      invariant (vecBuilds, vecPropCombineVolumes) == Collected(entities[..i], rd, scaleOf)
      invariant vecBuildAccountedFor == seq(|vecBuilds|, _ => false)
    {
      assert entities[..i + 1][..i] == entities[..i];
      if IsVolume(entities[i]) {
        vecPropCombineVolumes := vecPropCombineVolumes + [i];
      } else if IsProp(entities[i]) {
        var build := EntityToBuild(entities[i], rd, scaleOf(i));
        vecBuilds := vecBuilds + [build];
        vecBuildAccountedFor := vecBuildAccountedFor + [false];
      }
    }
    assert entities[..|entities|] == entities;
  }

  // ---------------------------------------------------------------------
  // What the entity loop guarantees
  // ---------------------------------------------------------------------

  /** The build's fade, fade-scale, lightmap and DX-level fields, as the
      entity loop fills them from the keys. */
  lemma EntityBuildFields(e: Entity, rd: KeyReaders, scale: real)
    ensures var b := EntityToBuild(e, rd, scale);
      && (b.fadesOut <==> FloatKey(e, rd, KEY_FADEMAXDIST) > 0.0)
      && (!b.fadesOut ==> b.fadeMinDist == 0.0)
      && (b.fadesOut && FloatKey(e, rd, KEY_FADEMINDIST) < 0.0 ==> b.fadeMinDist == b.fadeMaxDist)
      && (b.fadesOut && FloatKey(e, rd, KEY_FADEMINDIST) >= 0.0 ==> b.fadeMinDist == FloatKey(e, rd, KEY_FADEMINDIST))
      && (ValueForKey(e, KEY_FADESCALE) == "" ==> b.forcedFadeScale == 1.0)
      && (IntKey(e, rd, KEY_GENERATELIGHTMAPS) == 0 ==>
            b.flags & NO_PER_TEXEL_LIGHTING != 0 && b.lightmapResX == 0 && b.lightmapResY == 0)
      && b.minDXLevel as int == IntKey(e, rd, KEY_MINDXLEVEL) % 0x1_0000
      && b.maxDXLevel as int == IntKey(e, rd, KEY_MAXDXLEVEL) % 0x1_0000
  {
    var f := EntityFlags(e, rd);
    if IntKey(e, rd, KEY_GENERATELIGHTMAPS) == 0 {
      assert f & NO_PER_TEXEL_LIGHTING == NO_PER_TEXEL_LIGHTING;
    }
  }

  /** Each of the five switches sets its bit exactly when its key reads 1,
      NO_PER_TEXEL_LIGHTING is set exactly when generatelightmaps reads 0,
      and no other bit is set: in particular FLAG_FADES and
      USE_LIGHTING_ORIGIN are left to AddStaticPropToLump. */
  lemma EntityFlagBits(e: Entity, rd: KeyReaders)
    ensures var f := EntityFlags(e, rd);
      && (f & IGNORE_NORMALS != 0 <==> IntKey(e, rd, KEY_IGNORENORMALS) == 1)
      && (f & NO_SHADOW != 0 <==> IntKey(e, rd, KEY_DISABLESHADOWS) == 1)
      && (f & NO_PER_VERTEX_LIGHTING != 0 <==> IntKey(e, rd, KEY_DISABLEVERTEXLIGHTING) == 1)
      && (f & NO_SELF_SHADOWING != 0 <==> IntKey(e, rd, KEY_DISABLESELFSHADOWING) == 1)
      && (f & SCREEN_SPACE_FADE != 0 <==> IntKey(e, rd, KEY_SCREENSPACEFADE) == 1)
      && (f & NO_PER_TEXEL_LIGHTING != 0 <==> IntKey(e, rd, KEY_GENERATELIGHTMAPS) == 0)
      && f & !(IGNORE_NORMALS | NO_SHADOW | NO_PER_VERTEX_LIGHTING | NO_SELF_SHADOWING | SCREEN_SPACE_FADE
               | NO_PER_TEXEL_LIGHTING) == 0
  {
  }

  /** The indexes of the entities p holds for, in entity order. */
  function Where(entities: seq<Entity>, p: Entity -> bool): (r: seq<nat>)
    ensures forall k :: 0 <= k < |r| ==> r[k] < |entities| && p(entities[r[k]])
  {
    if entities == [] then []
    else
      var i := |entities| - 1;
      Where(entities[..i], p) + if p(entities[i]) then [i] else []
  }

  predicate Ascending(xs: seq<nat>)
  {
    forall a, b :: 0 <= a < b < |xs| ==> xs[a] < xs[b]
  }

  /** Where lists the matching entities in increasing order, so each once. */
  lemma {:induction false} WhereAscending(entities: seq<Entity>, p: Entity -> bool)
    ensures Ascending(Where(entities, p))
    decreases |entities|
  {
    if entities != [] {
      var i := |entities| - 1;
      var init := Where(entities[..i], p);
      WhereAscending(entities[..i], p);
      if p(entities[i]) {
        var r := init + [i];
        forall a, b | 0 <= a < b < |r|
          ensures r[a] < r[b]
        {
          if b == |init| {
            assert r[a] == init[a] < i;
          }
        }
      }
    }
  }

  /** Where misses no matching entity. */
  lemma {:induction false} WhereComplete(entities: seq<Entity>, p: Entity -> bool)
    ensures forall i :: 0 <= i < |entities| && p(entities[i]) ==> i in Where(entities, p)
    decreases |entities|
  {
    if entities != [] {
      var i := |entities| - 1;
      var init := entities[..i];
      WhereComplete(init, p);
      var r := Where(entities, p);
      assert Where(init, p) <= r;
      forall j | 0 <= j < i && p(entities[j])
        ensures j in r
      {
        assert init[j] == entities[j];
        assert j in Where(init, p);
      }
    }
  }

  predicate IsLighting(e: Entity)
  {
    ValueForKey(e, KEY_CLASSNAME) == CLASS_INFO_LIGHTING
  }

  /** s_LightingInfo, one entry per info_lighting entity in entity order,
      with the targetname and origin ComputeLightingOrigin reads from it. */
  function LightingInfos(entities: seq<Entity>, rd: KeyReaders): (r: seq<LightingEntity>)
  {
    var idx := Where(entities, IsLighting);
    seq(|idx|, k requires 0 <= k < |idx| =>
      LightingEntity(ValueForKey(entities[idx[k]], KEY_TARGETNAME), rd.vector(ValueForKey(entities[idx[k]], KEY_ORIGIN))))
  }

  /** The builds of the prop entities, in entity order. */
  function PropBuilds(entities: seq<Entity>, rd: KeyReaders, scaleOf: nat -> real): (r: seq<PropBuild>)
  {
    var idx := Where(entities, IsProp);
    seq(|idx|, k requires 0 <= k < |idx| => EntityToBuild(entities[idx[k]], rd, scaleOf(idx[k])))
  }

  /** The entity loop keeps the indexes of the combine volumes, in entity
      order. */
  lemma {:induction false} CollectedVolumes(entities: seq<Entity>, rd: KeyReaders, scaleOf: nat -> real)
    ensures Collected(entities, rd, scaleOf).1 == Where(entities, IsVolume)
    decreases |entities|
  {
    if entities != [] {
      CollectedVolumes(entities[..|entities| - 1], rd, scaleOf);
    }
  }

  /** The entity loop keeps the builds of the prop entities, in entity
      order. */
  lemma {:induction false} CollectedBuilds(entities: seq<Entity>, rd: KeyReaders, scaleOf: nat -> real)
    ensures Collected(entities, rd, scaleOf).0 == PropBuilds(entities, rd, scaleOf)
    decreases |entities|
  {
    if entities != [] {
      var i := |entities| - 1;
      CollectedBuilds(entities[..i], rd, scaleOf);
      PropBuildsStep(entities, rd, scaleOf);
      if IsProp(entities[i]) {
        assert !IsVolume(entities[i]);
      }
    }
  }

  /** PropBuilds of one more entity: one more build when it is a prop. */
  lemma PropBuildsStep(entities: seq<Entity>, rd: KeyReaders, scaleOf: nat -> real)
    requires entities != []
    ensures var i := |entities| - 1;
      PropBuilds(entities, rd, scaleOf)
        == PropBuilds(entities[..i], rd, scaleOf) + if IsProp(entities[i]) then [EntityToBuild(entities[i], rd, scaleOf(i))] else []
  {
    var i := |entities| - 1;
    var init := entities[..i];
    var idx0 := Where(init, IsProp);
    var a := PropBuilds(init, rd, scaleOf);
    var r := PropBuilds(entities, rd, scaleOf);
    forall k | 0 <= k < |idx0|
      ensures r[k] == a[k]
    {
      assert entities[idx0[k]] == init[idx0[k]];
    }
    if IsProp(entities[i]) {
      assert r == a + [r[|a|]];
    } else {
      assert r == a;
    }
  }

  // ---------------------------------------------------------------------
  // Filing the builds under their grouping keys
  // ---------------------------------------------------------------------

  /** dPropGroups: each key with the indexes filed under it, keys in the
      order they first appeared. */
  type Groups = seq<(u32, seq<nat>)>

  predicate GroupsIndex(groups: Groups, n: nat)
  {
    forall j :: 0 <= j < |groups| ==> Indexes(groups[j].1, n)
  }

  /** dPropGroups.Find: the position of the key, or the count when absent. */
  function GroupIndex(groups: Groups, key: u32): (r: nat)
    ensures r <= |groups|
    ensures r < |groups| ==> groups[r].0 == key
    ensures forall j :: 0 <= j < r ==> groups[j].0 != key
  {
    if groups == [] then 0
    else if groups[0].0 == key then 0
    else GroupIndex(groups[1..], key) + 1
  }

  /** Index i filed under key: appended to the key's list, or a new list. */
  function Bucket(groups: Groups, key: u32, i: nat): (r: Groups)
  {
    var g := GroupIndex(groups, key);
    if g < |groups| then groups[g := (key, groups[g].1 + [i])] else groups + [(key, [i])]
  }

  /** dPropGroups.Find, Insert of an empty list when the key is new, then
      AddToTail of the build's index. */
  method FileUnderKey(groups: Groups, key: u32, i: nat) returns (r: Groups)
    ensures r == Bucket(groups, key, i)
  {
    r := groups;
    var groupInd := GroupIndex(r, key);
    if groupInd == |r| {
      r := r + [(key, [])];
    }
    ghost var found := r;
    r := r[groupInd := (key, r[groupInd].1 + [i])];
    if groupInd == |groups| {
      assert found[groupInd].1 + [i] == [i];
      assert r == groups + [(key, [i])];
    }
  }

  /** The state of the filing loop besides dPropGroups: the pass's state,
      the flags and the build variables. */
  datatype Sorted = Sorted(s: St, accounted: seq<bool>, vars: seq<BuildVars>)

  /** What GetGroupingKeyAndSetNeededBuildVars finds for each build: its
      key, its build variables, and whether its model loaded. */
  function GroupingKeys(builds: seq<PropBuild>, w: CombineWorld): (r: seq<(u32, BuildVars, bool)>)
    ensures |r| == |builds|
  {
    if builds == [] then []
    else GroupingKeys(builds[..|builds| - 1], w) + [GroupingKey(builds[|builds| - 1], w.lump.readFile, w.crc)]
  }

  lemma {:induction false} GroupingKeysAt(builds: seq<PropBuild>, w: CombineWorld, i: nat)
    requires i < |builds|
    ensures GroupingKeys(builds, w)[i] == GroupingKey(builds[i], w.lump.readFile, w.crc)
    decreases |builds|
  {
    if i < |builds| - 1 {
      GroupingKeysAt(builds[..|builds| - 1], w, i);
    }
  }

  /** The first n passes of the filing loop, given each build's grouping
      key: a build whose model does not load is added to the lump at once
      and marked. Every pass appends the build's variables. */
  function Classified(s: St, builds: seq<PropBuild>, keys: seq<(u32, BuildVars, bool)>, n: nat, w: CombineWorld)
    : (r: Sorted)
    requires n <= |builds| == |keys|
    ensures |r.accounted| == |builds| && |r.vars| == n
  {
    if n == 0 then Sorted(s, seq(|builds|, _ => false), [])
    else
      var i := n - 1;
      var c := Classified(s, builds, keys, i, w);
      if !keys[i].2 then Sorted(Registered(c.s, builds[i], w), c.accounted[i := true], c.vars + [keys[i].1])
      else Sorted(c.s, c.accounted, c.vars + [keys[i].1])
  }

  /** dPropGroups after the first n passes: each build whose model loaded
      is filed under its key. */
  function GroupsOf(keys: seq<(u32, BuildVars, bool)>, n: nat): (r: Groups)
    requires n <= |keys|
    ensures GroupsIndex(r, n)
  {
    if n == 0 then []
    else
      var i := n - 1;
      var c := GroupsOf(keys, i);
      if !keys[i].2 then c
      else
        var groups := Bucket(c, keys[i].0, i);
        assert GroupsIndex(groups, n) by {
          var g := GroupIndex(c, keys[i].0);
          forall j | 0 <= j < |groups|
            ensures Indexes(groups[j].1, n)
          {
            if j == g {
              assert groups[j].1 == (if g < |c| then c[g].1 else []) + [i];
            } else {
              assert groups[j] == c[j];
            }
          }
        }
        groups
  }

  /** A build whose model does not load: AddStaticPropToLump at once, and
      the build is marked as accounted for. */
  method AddUnloaded(lumps: PropLumps, builds: seq<PropBuild>, i: nat, w: CombineWorld, ghost s0: St,
                     ghost keys: seq<(u32, BuildVars, bool)>, accounted: seq<bool>)
    returns (marked: seq<bool>)
    requires i < |builds| == |keys| && !keys[i].2
    requires lumps.Valid() && lumps.lightingInfo == w.lighting
    requires var r := Classified(s0, builds, keys, i, w);
      r.s == s0.(lumps := lumps.Contents(), collision := lumps.collisionCache) && accounted == r.accounted
    modifies lumps
    ensures lumps.Valid()
    ensures var r := Classified(s0, builds, keys, i + 1, w);
      r.s == s0.(lumps := lumps.Contents(), collision := lumps.collisionCache) && marked == r.accounted
  {
    lumps.AddStaticPropToLump(builds[i], w.lump);
    marked := accounted[i := true];
  }

  /** One pass of the filing loop, on build i. */
  method FileBuild(lumps: PropLumps, builds: seq<PropBuild>, i: nat, w: CombineWorld, ghost s0: St,
                   ghost keys: seq<(u32, BuildVars, bool)>, accounted: seq<bool>, vecBuildVars: seq<BuildVars>,
                   dPropGroups: Groups)
    returns (accounted': seq<bool>, vecBuildVars': seq<BuildVars>, dPropGroups': Groups)
    requires i < |builds| && keys == GroupingKeys(builds, w)
    requires lumps.Valid() && lumps.lightingInfo == w.lighting
    requires var r := Classified(s0, builds, keys, i, w);
      && r.s == s0.(lumps := lumps.Contents(), collision := lumps.collisionCache)
      && accounted == r.accounted && vecBuildVars == r.vars
    requires dPropGroups == GroupsOf(keys, i)
    modifies lumps
    ensures lumps.Valid()
    ensures var r := Classified(s0, builds, keys, i + 1, w);
      && r.s == s0.(lumps := lumps.Contents(), collision := lumps.collisionCache)
      && accounted' == r.accounted && vecBuildVars' == r.vars
    ensures dPropGroups' == GroupsOf(keys, i + 1)
  {
    accounted', dPropGroups' := accounted, dPropGroups;
    GroupingKeysAt(builds, w, i);
    var groupingKey, ok;
    groupingKey, vecBuildVars', ok := GetGroupingKeyAndSetNeededBuildVars(builds[i], vecBuildVars, w.lump.readFile, w.crc);
    if !ok {
      accounted' := AddUnloaded(lumps, builds, i, w, s0, keys, accounted);
    } else {
      dPropGroups' := FileUnderKey(dPropGroups, groupingKey, i);
    }
  }

  /** The filing loop. It runs before the combiner exists: the lumps object
      is the only state it changes, and the flags are the entity loop's. */
  method ClassifyBuilds(lumps: PropLumps, builds: seq<PropBuild>, w: CombineWorld, ghost s0: St,
                        vecBuildAccountedFor: seq<bool>)
    returns (accounted: seq<bool>, vecBuildVars: seq<BuildVars>, dPropGroups: Groups)
    requires lumps.Valid() && lumps.lightingInfo == w.lighting
    requires s0.lumps == lumps.Contents() && s0.collision == lumps.collisionCache
    requires vecBuildAccountedFor == seq(|builds|, _ => false)
    modifies lumps
    ensures lumps.Valid()
    ensures var r := Classified(s0, builds, GroupingKeys(builds, w), |builds|, w);
      && r.s == s0.(lumps := lumps.Contents(), collision := lumps.collisionCache)
      && accounted == r.accounted && vecBuildVars == r.vars
    ensures dPropGroups == GroupsOf(GroupingKeys(builds, w), |builds|)
  {
    accounted, vecBuildVars, dPropGroups := vecBuildAccountedFor, [], [];
    ghost var keys := GroupingKeys(builds, w);
    for i := 0 to |builds|
      invariant lumps.Valid()
      invariant var r := Classified(s0, builds, keys, i, w);
        && r.s == s0.(lumps := lumps.Contents(), collision := lumps.collisionCache)
        && accounted == r.accounted && vecBuildVars == r.vars
      invariant dPropGroups == GroupsOf(keys, i)
    {
      accounted, vecBuildVars, dPropGroups := FileBuild(lumps, builds, i, w, s0, keys, accounted, vecBuildVars, dPropGroups);
    }
  }

  /** After n passes: a build is marked exactly when it is among the first n
      and its model did not load, and the build variables are index-aligned
      with the builds. */
  lemma {:induction false} ClassifiedMarks(s: St, builds: seq<PropBuild>, keys: seq<(u32, BuildVars, bool)>, n: nat,
                                           w: CombineWorld)
    requires n <= |builds| == |keys|
    ensures var r := Classified(s, builds, keys, n, w);
      && (forall i :: 0 <= i < |builds| ==> r.accounted[i] == (i < n && !keys[i].2))
      && (forall i :: 0 <= i < n ==> r.vars[i] == keys[i].1)
    decreases n
  {
    if n > 0 {
      ClassifiedMarks(s, builds, keys, n - 1, w);
    }
  }

  /** The builds whose flag is clear, in order. */
  function Unmarked(accounted: seq<bool>, builds: seq<PropBuild>): (r: seq<PropBuild>)
    requires |accounted| == |builds|
  {
    if builds == [] then []
    else
      var i := |builds| - 1;
      Unmarked(accounted[..i], builds[..i]) + if accounted[i] then [] else [builds[i]]
  }

  /** Registering the unmarked builds one by one is AddStaticPropToLump for
      the list of them, in order. */
  lemma {:induction false} RegisterUnmarkedFilters(s: St, accounted: seq<bool>, builds: seq<PropBuild>, w: CombineWorld)
    requires |accounted| == |builds|
    ensures RegisterUnmarked(s, accounted, builds, w) == RegisterAll(s, Unmarked(accounted, builds), w)
    decreases |builds|
  {
    if builds != [] {
      var i := |builds| - 1;
      RegisterUnmarkedFilters(s, accounted[..i], builds[..i], w);
      var u := Unmarked(accounted[..i], builds[..i]);
      var s1 := RegisterUnmarked(s, accounted[..i], builds[..i], w);
      if !accounted[i] {
        assert Unmarked(accounted, builds) == u + [builds[i]];
        assert (u + [builds[i]])[..|u|] == u;
        assert RegisterAll(s, u + [builds[i]], w) == Registered(RegisterAll(s, u, w), builds[i], w);
      } else {
        assert Unmarked(accounted, builds) == u;
      }
    }
  }

  /** The filing loop adds the builds whose model did not load at once, in
      order, and nothing else. */
  lemma {:induction false} ClassifiedRegisters(s: St, builds: seq<PropBuild>, keys: seq<(u32, BuildVars, bool)>, n: nat,
                                               w: CombineWorld)
    requires n <= |builds| == |keys|
    ensures Classified(s, builds, keys, n, w).s
      == RegisterUnmarked(s, seq(n, i requires 0 <= i < n => keys[i].2), builds[..n], w)
    decreases n
  {
    if n > 0 {
      ClassifiedRegisters(s, builds, keys, n - 1, w);
      var ok := seq(n, i requires 0 <= i < n => keys[i].2);
      assert ok[..n - 1] == seq(n - 1, i requires 0 <= i < n - 1 => keys[i].2);
      assert builds[..n][..n - 1] == builds[..n - 1];
    }
  }

  /** dPropGroups as the filing loop leaves it after n passes: no key twice,
      each list ascending, every entry a loaded build of the first n whose
      key is the list's, and every such build filed under its own key. */
  predicate Filed(groups: Groups, keys: seq<(u32, BuildVars, bool)>, n: nat)
    requires n <= |keys|
  {
    && (forall g, h :: 0 <= g < h < |groups| ==> groups[g].0 != groups[h].0)
    && (forall g :: 0 <= g < |groups| ==> Ascending(groups[g].1))
    && (forall g, k :: 0 <= g < |groups| && 0 <= k < |groups[g].1| ==>
          groups[g].1[k] < n && keys[groups[g].1[k]].2 && keys[groups[g].1[k]].0 == groups[g].0)
    && FiledAll(groups, keys, n)
  }

  /** Every loaded build of the first n is in the list of its key. */
  predicate FiledAll(groups: Groups, keys: seq<(u32, BuildVars, bool)>, n: nat)
    requires n <= |keys|
  {
    forall j :: 0 <= j < n && keys[j].2 ==>
      GroupIndex(groups, keys[j].0) < |groups| && j in groups[GroupIndex(groups, keys[j].0)].1
  }

  /** Filing build n, whose model loaded, keeps Filed. */
  lemma BucketFiles(groups: Groups, keys: seq<(u32, BuildVars, bool)>, n: nat)
    requires n < |keys| && keys[n].2 && Filed(groups, keys, n)
    ensures Filed(Bucket(groups, keys[n].0, n), keys, n + 1)
  {
    BucketShape(groups, keys, n);
    BucketFilesAll(groups, keys, n);
  }

  /** The list Bucket leaves at the key's position. */
  function BucketList(groups: Groups, key: u32, i: nat): seq<nat>
  {
    var g := GroupIndex(groups, key);
    if g < |groups| then groups[g].1 + [i] else [i]
  }

  /** Bucket, entry by entry: the key's entry gets BucketList, the others
      are kept. */
  lemma BucketEntries(groups: Groups, key: u32, i: nat)
    ensures var g := GroupIndex(groups, key); var r := Bucket(groups, key, i);
      && |r| == (if g < |groups| then |groups| else |groups| + 1)
      && r[g] == (key, BucketList(groups, key, i))
      && forall h :: 0 <= h < |r| && h != g ==> r[h] == groups[h]
  {
  }

  /** The first three conjuncts of Filed, kept by filing build n. */
  lemma BucketShape(groups: Groups, keys: seq<(u32, BuildVars, bool)>, n: nat)
    requires n < |keys| && keys[n].2 && Filed(groups, keys, n)
    ensures var r := Bucket(groups, keys[n].0, n);
      && (forall a, b :: 0 <= a < b < |r| ==> r[a].0 != r[b].0)
      && (forall a :: 0 <= a < |r| ==> Ascending(r[a].1))
      && (forall a, k :: 0 <= a < |r| && 0 <= k < |r[a].1| ==>
            r[a].1[k] < n + 1 && keys[r[a].1[k]].2 && keys[r[a].1[k]].0 == r[a].0)
  {
    var key := keys[n].0;
    var g := GroupIndex(groups, key);
    var r := Bucket(groups, key, n);
    BucketEntries(groups, key, n);
    var list := BucketList(groups, key, n);
    assert Ascending(list) && forall k :: 0 <= k < |list| ==> list[k] <= n && keys[list[k]].2 && keys[list[k]].0 == key by {
      if g < |groups| {
        assert forall k :: 0 <= k < |groups[g].1| ==> groups[g].1[k] < n;
      }
    }
  }

  /** The completeness conjunct of Filed, kept by filing build n. */
  lemma BucketFilesAll(groups: Groups, keys: seq<(u32, BuildVars, bool)>, n: nat)
    requires n < |keys| && keys[n].2 && Filed(groups, keys, n)
    ensures FiledAll(Bucket(groups, keys[n].0, n), keys, n + 1)
  {
    var key := keys[n].0;
    var g := GroupIndex(groups, key);
    var r := Bucket(groups, key, n);
    BucketEntries(groups, key, n);
    BucketShape(groups, keys, n);
    forall j | 0 <= j < n + 1 && keys[j].2
      ensures GroupIndex(r, keys[j].0) < |r| && j in r[GroupIndex(r, keys[j].0)].1
    {
      var gj := if j == n then g else GroupIndex(groups, keys[j].0);
      assert r[gj].0 == keys[j].0 && j in r[gj].1;
      GroupIndexOf(r, keys[j].0, gj);
    }
  }

  /** A build whose model did not load is filed nowhere. */
  lemma FiledSkips(groups: Groups, keys: seq<(u32, BuildVars, bool)>, n: nat)
    requires n < |keys| && !keys[n].2 && Filed(groups, keys, n)
    ensures Filed(groups, keys, n + 1)
  {
  }

  /** In a list without repeated keys, the key of entry g is found at g. */
  lemma GroupIndexOf(groups: Groups, key: u32, g: nat)
    requires g < |groups| && groups[g].0 == key
    requires forall a, b :: 0 <= a < b < |groups| ==> groups[a].0 != groups[b].0
    ensures GroupIndex(groups, key) == g
  {
  }

  /** The filing loop files every loaded build under its own key. */
  lemma {:induction false} GroupsFiled(keys: seq<(u32, BuildVars, bool)>, n: nat)
    requires n <= |keys|
    ensures Filed(GroupsOf(keys, n), keys, n)
    decreases n
  {
    if n > 0 {
      GroupsFiled(keys, n - 1);
      var c := GroupsOf(keys, n - 1);
      if keys[n - 1].2 {
        BucketFiles(c, keys, n - 1);
      } else {
        FiledSkips(c, keys, n - 1);
      }
    }
  }

  // ---------------------------------------------------------------------
  // The volumes
  // ---------------------------------------------------------------------

  /** The pass's state and the accounted-for flags. */
  datatype Pass = Pass(s: St, accounted: seq<bool>)

  /** One volume: GroupPropsForVolume for every group, in order. */
  function GroupsDone(p: Pass, groups: Groups, builds: seq<PropBuild>, vars: seq<BuildVars>, brushes: seq<Brush>,
                      w: CombineWorld): (r: Pass)
    requires GroupsIndex(groups, |builds|) && |vars| == |builds| && |p.accounted| == |builds|
    ensures |r.accounted| == |builds|
  {
    if groups == [] then p
    else
      var q := GroupsDone(p, groups[..|groups| - 1], builds, vars, brushes, w);
      var o := Grouped(q.s, q.accounted, groups[|groups| - 1].1, builds, vars, brushes, w);
      Pass(o.s, o.accounted)
  }

  /** Every volume, in entity order, each with its own brush list. */
  function VolumesDone(p: Pass, volumes: seq<nat>, groups: Groups, builds: seq<PropBuild>, vars: seq<BuildVars>,
                       brushesOf: nat -> seq<Brush>, w: CombineWorld): (r: Pass)
    requires GroupsIndex(groups, |builds|) && |vars| == |builds| && |p.accounted| == |builds|
    ensures |r.accounted| == |builds|
  {
    if volumes == [] then p
    else
      var q := VolumesDone(p, volumes[..|volumes| - 1], groups, builds, vars, brushesOf, w);
      GroupsDone(q, groups, builds, vars, brushesOf(volumes[|volumes| - 1]), w)
  }

  method GroupVolume(c: Combiner, groups: Groups, builds: seq<PropBuild>, vars: seq<BuildVars>, brushes: seq<Brush>)
    requires c.Valid() && GroupsIndex(groups, |builds|) && |vars| == |builds| && |c.accounted| == |builds|
    modifies c, c.lumps
    ensures c.Valid()
    ensures Pass(c.State(), c.accounted) == GroupsDone(Pass(old(c.State()), old(c.accounted)), groups, builds, vars, brushes, c.w)
  {
    ghost var p0 := Pass(c.State(), c.accounted);
    for group := 0 to |groups|
      invariant c.Valid() && |c.accounted| == |builds|
      invariant Pass(c.State(), c.accounted) == GroupsDone(p0, groups[..group], builds, vars, brushes, c.w)
    {
      assert groups[..group + 1][..group] == groups[..group];
      var groupVec := groups[group].1;
      var made := c.GroupPropsForVolume(groupVec, builds, vars, brushes);
    }
    assert groups[..|groups|] == groups;
  }

  method CombineVolumes(c: Combiner, volumes: seq<nat>, groups: Groups, builds: seq<PropBuild>, vars: seq<BuildVars>,
                        brushesOf: nat -> seq<Brush>)
    requires c.Valid() && GroupsIndex(groups, |builds|) && |vars| == |builds| && |c.accounted| == |builds|
    modifies c, c.lumps
    ensures c.Valid()
    ensures Pass(c.State(), c.accounted)
      == VolumesDone(Pass(old(c.State()), old(c.accounted)), volumes, groups, builds, vars, brushesOf, c.w)
  {
    ghost var p0 := Pass(c.State(), c.accounted);
    for i := 0 to |volumes|
      invariant c.Valid() && |c.accounted| == |builds|
      invariant Pass(c.State(), c.accounted) == VolumesDone(p0, volumes[..i], groups, builds, vars, brushesOf, c.w)
    {
      assert volumes[..i + 1][..i] == volumes[..i];
      var pBSPBrushList := brushesOf(volumes[i]);
      GroupVolume(c, groups, builds, vars, pBSPBrushList);
    }
    assert volumes[..|volumes|] == volumes;
  }

  /** Once a fatal Error has stopped the program, GroupPropsForVolume's
      first loop does nothing. */
  lemma {:induction false} GatheredHalted(g: Gather, keys: seq<nat>, builds: seq<PropBuild>, vars: seq<BuildVars>,
                                          brushes: seq<Brush>, w: CombineWorld)
    requires Indexes(keys, |builds|) && |vars| == |builds| && |g.accounted| == |builds| && g.s.halted
    ensures Gathered(g, keys, builds, vars, brushes, w) == g
    decreases |keys|
  {
    if keys != [] {
      GatheredHalted(g, keys[..|keys| - 1], builds, vars, brushes, w);
    }
  }

  /** After a fatal Error no group of a volume changes anything. */
  lemma {:induction false} GroupsDoneHalted(p: Pass, groups: Groups, builds: seq<PropBuild>, vars: seq<BuildVars>,
                                            brushes: seq<Brush>, w: CombineWorld)
    requires GroupsIndex(groups, |builds|) && |vars| == |builds| && |p.accounted| == |builds| && p.s.halted
    ensures GroupsDone(p, groups, builds, vars, brushes, w) == p
    decreases |groups|
  {
    if groups != [] {
      GroupsDoneHalted(p, groups[..|groups| - 1], builds, vars, brushes, w);
      GatheredHalted(Gather(p.s, p.accounted, [], Zero3, 0.0, 0), groups[|groups| - 1].1, builds, vars, brushes, w);
    }
  }

  /** After a fatal Error no later volume changes anything. */
  lemma {:induction false} VolumesDoneHalted(p: Pass, volumes: seq<nat>, groups: Groups, builds: seq<PropBuild>,
                                             vars: seq<BuildVars>, brushesOf: nat -> seq<Brush>, w: CombineWorld)
    requires GroupsIndex(groups, |builds|) && |vars| == |builds| && |p.accounted| == |builds| && p.s.halted
    ensures VolumesDone(p, volumes, groups, builds, vars, brushesOf, w) == p
    decreases |volumes|
  {
    if volumes != [] {
      VolumesDoneHalted(p, volumes[..|volumes| - 1], groups, builds, vars, brushesOf, w);
      GroupsDoneHalted(p, groups, builds, vars, brushesOf(volumes[|volumes| - 1]), w);
    }
  }

  /** Within a volume, a build once accounted for stays accounted for. */
  lemma {:induction false} GroupsDoneMarks(p: Pass, groups: Groups, builds: seq<PropBuild>, vars: seq<BuildVars>,
                                           brushes: seq<Brush>, w: CombineWorld)
    requires GroupsIndex(groups, |builds|) && |vars| == |builds| && |p.accounted| == |builds|
    ensures var r := GroupsDone(p, groups, builds, vars, brushes, w);
      forall i :: 0 <= i < |builds| && p.accounted[i] ==> r.accounted[i]
    decreases |groups|
  {
    if groups != [] {
      GroupsDoneMarks(p, groups[..|groups| - 1], builds, vars, brushes, w);
      var q := GroupsDone(p, groups[..|groups| - 1], builds, vars, brushes, w);
      GroupedMarks(q.s, q.accounted, groups[|groups| - 1].1, builds, vars, brushes, w);
    }
  }

  /** Across the volumes, a build once accounted for stays accounted for,
      so no build is combined or rescaled twice. */
  lemma {:induction false} VolumesDoneMarks(p: Pass, volumes: seq<nat>, groups: Groups, builds: seq<PropBuild>,
                                            vars: seq<BuildVars>, brushesOf: nat -> seq<Brush>, w: CombineWorld)
    requires GroupsIndex(groups, |builds|) && |vars| == |builds| && |p.accounted| == |builds|
    ensures var r := VolumesDone(p, volumes, groups, builds, vars, brushesOf, w);
      forall i :: 0 <= i < |builds| && p.accounted[i] ==> r.accounted[i]
    decreases |volumes|
  {
    if volumes != [] {
      VolumesDoneMarks(p, volumes[..|volumes| - 1], groups, builds, vars, brushesOf, w);
      var q := VolumesDone(p, volumes[..|volumes| - 1], groups, builds, vars, brushesOf, w);
      GroupsDoneMarks(q, groups, builds, vars, brushesOf(volumes[|volumes| - 1]), w);
    }
  }

  // ---------------------------------------------------------------------
  // Adding what is left
  // ---------------------------------------------------------------------

  /** AddStaticPropToLump for every build, in order. */
  function RegisterAll(s: St, builds: seq<PropBuild>, w: CombineWorld): St
  {
    if builds == [] then s else Registered(RegisterAll(s, builds[..|builds| - 1], w), builds[|builds| - 1], w)
  }

  /** The closing loop: AddStaticPropToLump for every build not accounted
      for, in order. */
  function RegisterUnmarked(s: St, accounted: seq<bool>, builds: seq<PropBuild>, w: CombineWorld): St
    requires |accounted| == |builds|
  {
    if builds == [] then s
    else
      var i := |builds| - 1;
      var s1 := RegisterUnmarked(s, accounted[..i], builds[..i], w);
      if accounted[i] then s1 else Registered(s1, builds[i], w)
  }

  method AddUngrouped(c: Combiner, builds: seq<PropBuild>)
    requires c.Valid() && |c.accounted| == |builds|
    modifies c.lumps
    ensures c.Valid()
    ensures c.State() == RegisterUnmarked(old(c.State()), c.accounted, builds, c.w)
  {
    ghost var s0 := c.State();
    for i := 0 to |c.accounted|
      invariant c.Valid()
      invariant c.State() == RegisterUnmarked(s0, c.accounted[..i], builds[..i], c.w)
    {
      assert c.accounted[..i + 1][..i] == c.accounted[..i] && builds[..i + 1][..i] == builds[..i];
      if !c.accounted[i] {
        c.AddToLump(builds[i]);
      }
    }
    assert c.accounted[..|builds|] == c.accounted && builds[..|builds|] == builds;
  }

  /** The path without combine volumes: every build, in order. */
  method AddAll(lumps: PropLumps, builds: seq<PropBuild>, w: CombineWorld, ghost s0: St)
    requires lumps.Valid() && lumps.lightingInfo == w.lighting
    requires s0.lumps == lumps.Contents() && s0.collision == lumps.collisionCache
    modifies lumps
    ensures lumps.Valid()
    ensures var r := RegisterAll(s0, builds, w); lumps.Contents() == r.lumps && lumps.collisionCache == r.collision
  {
    for i := 0 to |builds|
      invariant lumps.Valid()
      invariant var r := RegisterAll(s0, builds[..i], w); lumps.Contents() == r.lumps && lumps.collisionCache == r.collision
    {
      assert builds[..i + 1][..i] == builds[..i];
      lumps.AddStaticPropToLump(builds[i], w.lump);
    }
    assert builds[..|builds|] == builds;
  }

  // ---------------------------------------------------------------------
  // The whole pass
  // ---------------------------------------------------------------------

  /** EmitStaticProps, from the state the pass starts in (the lumps, the
      descriptors SearchQCs found and the key map InitCache read). A fatal
      Error in a volume ends the program, so nothing follows it. */
  function Emitted(s: St, entities: seq<Entity>, rd: KeyReaders, scaleOf: nat -> real, brushesOf: nat -> seq<Brush>,
                   w: CombineWorld): St
  {
    var (builds, volumes) := Collected(entities, rd, scaleOf);
    if |volumes| == 0 then RegisterAll(s, builds, w)
    else
      var keys := GroupingKeys(builds, w);
      var c := Classified(s, builds, keys, |builds|, w);
      var p := VolumesDone(Pass(c.s, c.accounted), volumes, GroupsOf(keys, |builds|), builds, c.vars, brushesOf, w);
      if p.s.halted then p.s else RegisterUnmarked(p.s, p.accounted, builds, w)
  }

  /** Registering props writes no cache line. */
  lemma {:induction false} RegisterAllKeepsCache(s: St, builds: seq<PropBuild>, w: CombineWorld)
    ensures RegisterAll(s, builds, w).cache == s.cache
    decreases |builds|
  {
    if builds != [] {
      RegisterAllKeepsCache(s, builds[..|builds| - 1], w);
    }
  }

  lemma {:induction false} RegisterUnmarkedKeepsCache(s: St, accounted: seq<bool>, builds: seq<PropBuild>, w: CombineWorld)
    requires |accounted| == |builds|
    ensures RegisterUnmarked(s, accounted, builds, w).cache == s.cache
    decreases |builds|
  {
    if builds != [] {
      RegisterUnmarkedKeepsCache(s, accounted[..|builds| - 1], builds[..|builds| - 1], w);
    }
  }

  method EmitStaticProps(lumps: PropLumps, entities: seq<Entity>, rd: KeyReaders, scaleOf: nat -> real,
                         brushesOf: nat -> seq<Brush>, w: CombineWorld, qcs: map<string, ParsedQc>,
                         combinedProps: map<u32, string>)
      returns (cacheLines: seq<string>)
    requires lumps.Valid() && lumps.lightingInfo == w.lighting == LightingInfos(entities, rd)
    modifies lumps
    ensures lumps.Valid()
    ensures var r := Emitted(St(old(lumps.Contents()), old(lumps.collisionCache), qcs, map[], combinedProps, [], false),
                             entities, rd, scaleOf, brushesOf, w);
      lumps.Contents() == r.lumps && lumps.collisionCache == r.collision && cacheLines == r.cache
  {
    ghost var s0 := St(lumps.Contents(), lumps.collisionCache, qcs, map[], combinedProps, [], false);
    var vecBuilds, vecPropCombineVolumes, vecBuildAccountedFor := CollectEntities(entities, rd, scaleOf);
    if |vecPropCombineVolumes| == 0 {
      AddAll(lumps, vecBuilds, w, s0);
      RegisterAllKeepsCache(s0, vecBuilds, w);
      return [];
    }
    var accounted, vecBuildVars, dPropGroups := ClassifyBuilds(lumps, vecBuilds, w, s0, vecBuildAccountedFor);
    var c := new Combiner(lumps, w, qcs, combinedProps, accounted);
    CombineVolumes(c, vecPropCombineVolumes, dPropGroups, vecBuilds, vecBuildVars, brushesOf);
    if c.halted {
      return c.cacheLines;
    }
    ghost var before := c.State();
    AddUngrouped(c, vecBuilds);
    RegisterUnmarkedKeepsCache(before, c.accounted, vecBuilds, w);
    cacheLines := c.cacheLines;
  }

  /** Registering a list in two parts is registering it whole. */
  lemma {:induction false} RegisterAllAppend(s: St, a: seq<PropBuild>, b: seq<PropBuild>, w: CombineWorld)
    ensures RegisterAll(s, a + b, w) == RegisterAll(RegisterAll(s, a, w), b, w)
    decreases |b|
  {
    if b != [] {
      var b0 := b[..|b| - 1];
      RegisterAllAppend(s, a, b0, w);
      assert (a + b)[..|a + b| - 1] == a + b0 && (a + b)[|a + b| - 1] == b[|b| - 1];
    } else {
      assert a + b == a;
    }
  }

  /** Without a combine volume, every prop entity's build is added to the
      lump once, in entity order. */
  lemma EmittedWithoutVolumes(s: St, entities: seq<Entity>, rd: KeyReaders, scaleOf: nat -> real,
                              brushesOf: nat -> seq<Brush>, w: CombineWorld)
    requires forall i :: 0 <= i < |entities| ==> !IsVolume(entities[i])
    ensures Emitted(s, entities, rd, scaleOf, brushesOf, w) == RegisterAll(s, PropBuilds(entities, rd, scaleOf), w)
  {
    CollectedVolumes(entities, rd, scaleOf);
    CollectedBuilds(entities, rd, scaleOf);
  }

  /** With a combine volume: the filing loop adds the builds whose model did
      not load, in order; the volumes follow; and unless a fatal Error
      stopped them, every build still not accounted for is added, in
      order. */
  lemma EmittedWithVolumes(s: St, entities: seq<Entity>, rd: KeyReaders, scaleOf: nat -> real,
                           brushesOf: nat -> seq<Brush>, w: CombineWorld, j: nat)
    requires j < |entities| && IsVolume(entities[j])
    ensures var builds := PropBuilds(entities, rd, scaleOf);
      var keys := GroupingKeys(builds, w);
      var c := Classified(s, builds, keys, |builds|, w);
      var p := VolumesDone(Pass(c.s, c.accounted), Where(entities, IsVolume), GroupsOf(keys, |builds|), builds, c.vars,
                           brushesOf, w);
      && c.s == RegisterAll(s, Unmarked(seq(|builds|, i requires 0 <= i < |builds| => keys[i].2), builds), w)
      && Emitted(s, entities, rd, scaleOf, brushesOf, w)
         == if p.s.halted then p.s else RegisterAll(p.s, Unmarked(p.accounted, builds), w)
  {
    CollectedVolumes(entities, rd, scaleOf);
    CollectedBuilds(entities, rd, scaleOf);
    WhereComplete(entities, IsVolume);
    assert j in Where(entities, IsVolume);
    var builds := PropBuilds(entities, rd, scaleOf);
    var keys := GroupingKeys(builds, w);
    var c := Classified(s, builds, keys, |builds|, w);
    var p := VolumesDone(Pass(c.s, c.accounted), Where(entities, IsVolume), GroupsOf(keys, |builds|), builds, c.vars,
                         brushesOf, w);
    UnloadedRegistered(s, builds, keys, w);
    RegisterUnmarkedFilters(p.s, p.accounted, builds, w);
  }

  /** The whole filing loop adds exactly the builds whose model did not
      load, in order. */
  lemma UnloadedRegistered(s: St, builds: seq<PropBuild>, keys: seq<(u32, BuildVars, bool)>, w: CombineWorld)
    requires |builds| == |keys|
    ensures Classified(s, builds, keys, |builds|, w).s
      == RegisterAll(s, Unmarked(seq(|builds|, i requires 0 <= i < |builds| => keys[i].2), builds), w)
  {
    ClassifiedRegisters(s, builds, keys, |builds|, w);
    assert builds[..|builds|] == builds;
    RegisterUnmarkedFilters(s, seq(|builds|, i requires 0 <= i < |builds| => keys[i].2), builds, w);
  }

}
