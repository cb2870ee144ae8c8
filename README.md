# vbsp static props, with prop combining

This project models the static-prop pass of the Source SDK 2013 map compiler
(vbsp) in the variant that can merge props. Map entities `prop_static` and
`static_prop` become records in the game lump. Props inside a
`comp_propcombine_volume` that share materials and surface properties are
merged into one generated model.

The model covers these parts of the pass:

- **The QC reader** (`QCFile_t::QCFile_t`, module `QcParser`). It walks a
  build script's tokens and keeps the model name, the reference and the
  collision mesh paths, and the `$scale` in effect when each was named. A
  skeletal-rig directive, a missing argument or a second bare reference mesh
  rejects the script. The stored path is normalised to `models/...` with
  forward slashes.
- **Mesh appending** (`reallocMeshSource` and `CombineMeshes`, module
  `Mesh`). A class over the growable arrays of an `s_source_t`. It appends
  a placed mesh, shifts the new faces' vertex indices and leaves calloc's
  zeroes in vertex slots no face uses.
- **Grouping and member keys** (module `Grouping`):
  - `GetGroupingKeyAndSetNeededBuildVars` hashes materials, flags, contents
    and the surface property;
  - the rescale key of `AddStaticPropToLumpWithScaling`;
  - the 1/100 quantisation and 15-degree yaw snapping of a group's
    placement;
  - the per-member bytes of the merge key.
- **The build cache** (module `BuildCache`). It writes lines in two forms,
  one for a single model and one for a group. A line has model/checksum
  pairs, the key in `%x`, and the output path, separated by ESC (0x1b).
  The module also reads a line back (`ParseCacheLine`) and reads the whole
  file (`InitCache`). The round trip is proved: a written line is accepted
  exactly when every model's checksum still matches and the output file
  exists. Lines are unbounded strings here; the source's 1638-byte line
  buffer is listed under "Left out".
- **The lumps** (`staticprop.cpp`, module `StaticPropLump`):
  - model loading checks;
  - the 128-byte name dictionary;
  - the collision-model cache keyed on the lower-cased, slash-fixed name;
  - the lighting-origin lookup;
  - `AddStaticPropToLump` as a class over the dictionary, prop and leaf
    lumps, which keeps the leaf ranges disjoint and in order;
  - the lump image `SetLumpData` writes, and how it is read back.
- **The combine pass** (modules `PropCombine` and `CombinePass`). Each
  step is first defined as a function on the pass state `St`: lumps,
  collision cache, QC and mesh memos, key-to-model map, cache lines and a
  "halted by Error" flag. The following are all covered:
  - decompiling a model and looking it up;
  - compiling and registering the result;
  - rescaling a single prop;
  - `GroupPropsForVolume`: gathering a key group's props that touch a
    volume's brushes, averaging their placement, keying and merging them.
  
  The class `CombinePass.Combiner` then carries out the same steps with
  fields and loops, and each of its methods is proved to equal its
  function.
- **`EmitStaticProps`** (module `Emit`):
  - the entity loop that builds `StaticPropBuild_t` records and collects
    volumes;
  - the filing loop that registers props whose model does not load and
    files the rest under their grouping key;
  - the loop over volumes and groups;
  - registration of every prop still not accounted for, or of every prop
    when the map has no volume.

One behaviour of the source is worth knowing. In `GroupPropsForVolume`'s
first loop, a prop is appended to the local group once per brush of the
volume it touches. If it touches several brushes, it is merged, and its
origin and yaw are averaged, that many times (`PropCombine.ScanAppendsPerBrush`).

External collaborators are parameters of the model, gathered in the
datatypes `LumpWorld` and `CombineWorld`:
- model-file reading, convex-hull building and the BSP leaf walk;
- CRC-32, the bytes of a float, and `AngleMatrix`;
- the hull's bounding box and brush intersection;
- the decompiler and the model compiler, as exit results;
- the `.qc` tokens the decompiler writes, `atof`, and `Load_SMD`;
- `GetModelChecksum` and file existence.

Floating point is modelled as `real`. The integers the source writes as
bytes are reduced modulo 2^32 where the source truncates.

## Model

| member | source | states |
|---|---|---|
| Common.RoundInt | mp/src/utils/vbsp/StaticPropAdditions.cpp:961 | the rounded value lies within half a unit of its argument (halves round up) |
| Common.RoundIntOfInt | mp/src/utils/vbsp/StaticPropAdditions.cpp:984-985 | rounding a whole number gives it back |
| Common.StrBytesAppend | mp/src/utils/vbsp/StaticPropAdditions.cpp:708 | the bytes fed for two strings in turn are the bytes of their concatenation, with no terminator between |
| Common.IntBytes | mp/src/utils/vbsp/StaticPropAdditions.cpp:709 | an int is fed as exactly four bytes |
| Common.IntBytesRoundTrip | mp/src/utils/vbsp/StaticPropAdditions.cpp:858-867 | the four bytes fed for an int decode, little-endian, to the int modulo 2^32 |
| Common.ToLower | mp/src/utils/vbsp/staticprop.cpp:467 | the lower-cased name keeps the length and holds no upper-case letter |
| Common.ToLowerIdempotent | mp/src/utils/vbsp/staticprop.cpp:467 | lower-casing an already lower-cased name changes nothing |
| Common.ReplaceChar | mp/src/utils/vbsp/staticprop.cpp:469-474 | after the replacement the old character no longer occurs, and the new one occurs exactly when either occurred before |
| Common.FixSlashes | mp/src/utils/vbsp/StaticPropAdditions.cpp:840 | V_FixSlashes leaves no backslash and changes nothing else |
| Common.FlattenAppend | mp/src/utils/vbsp/staticprop.cpp:756-780 | concatenating one more part appends its bytes at the end |
| Common.FlattenConcat | mp/src/utils/vbsp/staticprop.cpp:756-780 | concatenation distributes over splitting the list of parts |
| Common.FlattenUniform | mp/src/utils/vbsp/staticprop.cpp:756-780 | n parts of k bytes concatenate to k*n bytes |
| QcParser.SkipSpace | mp/src/utils/vbsp/StaticPropAdditions.cpp:105 | the result is a suffix of the input that starts with a non-blank |
| QcParser.TakeWord | mp/src/utils/vbsp/StaticPropAdditions.cpp:105 | the word is a prefix without blanks, followed by a blank or the end |
| QcParser.FirstWord | mp/src/utils/vbsp/StaticPropAdditions.cpp:102-106 | the `%s` word read for `$modelname` holds no blank |
| QcParser.SkipBraces | mp/src/utils/vbsp/StaticPropAdditions.cpp:73-89 | the skip of a compound block never moves backwards or past the end |
| QcParser.FixDoubleSlashesFrom | mp/src/utils/vbsp/StaticPropAdditions.cpp:197 | removing slashes never lengthens the path |
| QcParser.ParseResult | mp/src/utils/vbsp/StaticPropAdditions.cpp:32-228 | a rejected script leaves the object reset; an accepted one has a model path and a reference mesh |
| QcParser.SkipSection | mp/src/utils/vbsp/StaticPropAdditions.cpp:73-89 | the brace-counting loop stops where `SkipBraces` does, so at the close of the block or the end of the script (`SkipBracesStopsAtClose`), reporting the last token read |
| QcParser.ReadBodyBlock | mp/src/utils/vbsp/StaticPropAdditions.cpp:131-150 | the loop over a `$body` block continues the script exactly as `BodyBlock` does, or rejects when it does |
| QcParser.ApplyDirective | mp/src/utils/vbsp/StaticPropAdditions.cpp:91-179 | applying one directive agrees with `Dispatch`, including every rejection |
| QcParser.ParseQC | mp/src/utils/vbsp/StaticPropAdditions.cpp:32-228 | the constructor's token loop leaves exactly the object and return flag of `ParseResult`, whose properties the lemmas below state |
| QcParser.RiggingDirectiveRejects | mp/src/utils/vbsp/StaticPropAdditions.cpp:169-179 | a skeletal-rig directive anywhere a directive is read rejects the script |
| QcParser.MissingArgumentRejects | mp/src/utils/vbsp/StaticPropAdditions.cpp:91-167 | `$scale`, `$modelname` or `$collisionmodel` as the last token, or a body directive without its two arguments, rejects the script |
| QcParser.SecondBareReferenceRejects | mp/src/utils/vbsp/StaticPropAdditions.cpp:117-128 | a bare `$body name file` after a reference mesh is known rejects the script |
| QcParser.EndOfScript | mp/src/utils/vbsp/StaticPropAdditions.cpp:182-206 | a script that runs out is accepted if and only if it named a model and a reference mesh, and then the stored object holds the normalised name, both meshes and their scales |
| QcParser.SkipBracesStopsAtClose | mp/src/utils/vbsp/StaticPropAdditions.cpp:73-89 | the skip stops at the first token where the brace depth returns to zero, or at the end if it never does; the reported token is the last one read |
| QcParser.BlockEnd | mp/src/utils/vbsp/StaticPropAdditions.cpp:131-150 | the index after the first closing brace at or after a position, or the end |
| QcParser.BodyBlockWithReference | mp/src/utils/vbsp/StaticPropAdditions.cpp:131-150 | once a reference mesh is known, a `$body` block is skipped up to its first closing brace without changing anything |
| QcParser.FirstStudioWins | mp/src/utils/vbsp/StaticPropAdditions.cpp:133-142 | the first `studio` entry of a block names the reference mesh with the current scale, and a `studio` with no file rejects the script |
| QcParser.RunFromScript | mp/src/utils/vbsp/StaticPropAdditions.cpp:71-180 | every path and scale the token loop stores comes from the script, and scales are read from a token or the default 1 |
| QcParser.DispatchFromScript | mp/src/utils/vbsp/StaticPropAdditions.cpp:91-179 | one directive stores only paths built from the script's tokens and scales read from them |
| QcParser.BodyBlockFromScript | mp/src/utils/vbsp/StaticPropAdditions.cpp:131-150 | a `$body` block stores only paths built from the script's tokens |
| QcParser.ParsedValuesFromScript | mp/src/utils/vbsp/StaticPropAdditions.cpp:66-179 | a coarse bound: the accepted object's mesh paths are the script's directory joined with some token, and its scales are 1 or some token's value |
| QcParser.Reads | mp/src/utils/vbsp/StaticPropAdditions.cpp:70-179 | every read the token loop performs agrees with the tokens at its directive: a `$scale` with a number that parses, a non-empty `$modelname` word, a bare reference `toks[r + 2]` after body directive `r`, a studio line's file, a `$collisionmodel` file |
| QcParser.ParsedFromReads | mp/src/utils/vbsp/StaticPropAdditions.cpp:66-179 | on success the reference mesh is `<location>/<file>` of the first reference read, with the last `$scale` read before it (else 1); the collision mesh is that of the last `$collisionmodel` read, with the last `$scale` read before it (else none and 1); the path comes from the last `$modelname` word |
| QcParser.FixDoubleSlashesKeeps | mp/src/utils/vbsp/StaticPropAdditions.cpp:197 | removing doubled slashes adds no backslash and keeps a leading `models/` |
| QcParser.FixDoubleSlashesClean | mp/src/utils/vbsp/StaticPropAdditions.cpp:197 | without a run of three slashes, the pass leaves no doubled slash after the first character |
| QcParser.NormalizedPathShape | mp/src/utils/vbsp/StaticPropAdditions.cpp:185-197 | the stored model path starts with `models/` and contains no backslash |
| QcParser.NormalizedPathNoDoubleSlash | mp/src/utils/vbsp/StaticPropAdditions.cpp:185-197 | when the name, with `models/` put in front, has no run of three slashes, the stored model path has no doubled slash |
| QcParser.LeadingSlashCollapsed | mp/src/utils/vbsp/StaticPropAdditions.cpp:185-197 | a name with one leading slash, no second slash after it and no `models/` of its own is stored exactly as the same name without the slash |
| QcParser.TripleSlashLeavesDouble | mp/src/utils/vbsp/StaticPropAdditions.cpp:197 | a run of three slashes can leave a doubled slash behind: for example `a///b` becomes `a//b` |
| QcParser.ParsedPathShape | mp/src/utils/vbsp/StaticPropAdditions.cpp:185-206 | every accepted script stores a path that starts with `models/` and has only forward slashes |
| Mesh.WithCorner | mp/src/utils/vbsp/StaticPropAdditions.cpp:495-498 | setting one corner of a face changes that corner only and keeps the material |
| Mesh.Shift | mp/src/utils/vbsp/StaticPropAdditions.cpp:495-501 | a shifted face has every corner moved up by the offset and the same material |
| Mesh.Grow | mp/src/utils/vbsp/StaticPropAdditions.cpp:344-379 | reallocation grows the vertex, normal and texcoord tables by the added vertex count and the face table by the added face count, keeps every old entry, zeroes every new one, and keeps the tables parallel |
| Mesh.Combine | mp/src/utils/vbsp/StaticPropAdditions.cpp:453-503 | appending an empty mesh changes nothing; otherwise every table grows by the addition and the old contents are kept |
| Mesh.VertexSlots | mp/src/utils/vbsp/StaticPropAdditions.cpp:486-496 | one vertex slot per added vertex |
| Mesh.NormalSlots | mp/src/utils/vbsp/StaticPropAdditions.cpp:486-496 | one normal slot per added vertex |
| Mesh.TexcoordSlots | mp/src/utils/vbsp/StaticPropAdditions.cpp:482 | an added vertex's texture coordinate is copied when a face uses it and is zero otherwise |
| Mesh.ShiftedFaces | mp/src/utils/vbsp/StaticPropAdditions.cpp:470-502 | the added faces, each shifted by the old vertex count |
| Mesh.SlotAt | mp/src/utils/vbsp/StaticPropAdditions.cpp:486-496 | a used vertex's slot holds its placed position and normal, an unused one zero |
| Mesh.SlotsExtend | mp/src/utils/vbsp/StaticPropAdditions.cpp:476-499 | writing one corner's vertex updates exactly that slot of the three tables |
| Mesh.SlotsNone | mp/src/utils/vbsp/StaticPropAdditions.cpp:468 | before any face is read every added slot is zero |
| Mesh.MeshSource.constructor | mp/src/utils/vbsp/StaticPropAdditions.cpp:344-379 | a mesh object holds the given contents |
| Mesh.MeshSource.Realloc | mp/src/utils/vbsp/StaticPropAdditions.cpp:344-379 | the arrays are replaced by fresh ones holding the grown contents |
| Mesh.MeshSource.PlaceCorner | mp/src/utils/vbsp/StaticPropAdditions.cpp:478-498 | placing one corner fills its vertex, normal and texture slots |
| Mesh.MeshSource.PlaceFaceCorners | mp/src/utils/vbsp/StaticPropAdditions.cpp:476-499 | the corner loop fills the slots of the face's three vertices and yields the shifted face |
| Mesh.MeshSource.AppendFace | mp/src/utils/vbsp/StaticPropAdditions.cpp:470-502 | one pass of the face loop advances the mesh by exactly one face |
| Mesh.MeshSource.CombineMeshes | mp/src/utils/vbsp/StaticPropAdditions.cpp:453-503 | the method leaves the mesh equal to `Combine` of the old mesh, whose layout `CombinedFace` and `CombinedSlot` state |
| Mesh.GrowArray | mp/src/utils/vbsp/StaticPropAdditions.cpp:359-378 | a fresh array with the old entries followed by the given number of zero entries |
| Mesh.PartialDone | mp/src/utils/vbsp/StaticPropAdditions.cpp:470-503 | after the face loop the mesh is the combined mesh |
| Mesh.InCorners | mp/src/utils/vbsp/StaticPropAdditions.cpp:476-481 | a vertex is written if and only if some added face names it at some corner |
| Mesh.CombinedFace | mp/src/utils/vbsp/StaticPropAdditions.cpp:495-501 | added face i is stored at the old face count plus i, with every corner moved up by the old vertex count and the same material |
| Mesh.CombinedSlot | mp/src/utils/vbsp/StaticPropAdditions.cpp:476-499 | an added vertex some face uses holds its placed position and normal and its original texture coordinate; an unused one stays zero |
| Mesh.CombinePreservesWellFormed | mp/src/utils/vbsp/StaticPropAdditions.cpp:470-502 | appending a mesh whose faces name existing vertices keeps every face's corners in range |
| Mesh.CombineTwiceCounts | mp/src/utils/vbsp/StaticPropAdditions.cpp:1103-1110 | appending two meshes in turn adds both their vertex and face counts and keeps the original faces |
| Grouping.SurfacePropImage | mp/src/utils/vbsp/StaticPropAdditions.cpp:870 | the 32-byte surface-property buffer holds the name's bytes followed by zeroes |
| Grouping.NameImages | mp/src/utils/vbsp/StaticPropAdditions.cpp:837-853 | each material path is fed slash-fixed, as its characters' bytes |
| Grouping.FixedNames | mp/src/utils/vbsp/StaticPropAdditions.cpp:837-844 | the stored material directories are the slash-fixed names, in order |
| Grouping.GetGroupingKeyAndSetNeededBuildVars | mp/src/utils/vbsp/StaticPropAdditions.cpp:810-883 | the key, the success flag and the build variables appended are those of `GroupingKey`, for the one build |
| Grouping.ProcessNames | mp/src/utils/vbsp/StaticPropAdditions.cpp:837-853 | the loop feeds the concatenated slash-fixed names and stores them |
| Grouping.GroupingKeyOfMissingModel | mp/src/utils/vbsp/StaticPropAdditions.cpp:814-824 | a model that does not load gives key 0, failure, and blank build variables |
| Grouping.GroupingKeyIgnoresFadeBits | mp/src/utils/vbsp/StaticPropAdditions.cpp:861-864 | builds that differ only in fade and lighting-origin flags get the same key |
| Grouping.GroupingKeyIgnoresSlashStyle | mp/src/utils/vbsp/StaticPropAdditions.cpp:837-853 | material names that differ only in separator style hash the same |
| Grouping.GroupingKeyTail | mp/src/utils/vbsp/StaticPropAdditions.cpp:858-870 | the hashed bytes end with the model flags, the masked prop flags, the contents and the 32-byte surface property, in that order |
| Grouping.GroupingVarsOfLoadedModel | mp/src/utils/vbsp/StaticPropAdditions.cpp:833-844 | a loaded model's build variables hold its contents, surface property and slash-fixed material directories |
| Grouping.RescaleKeySeparatesScales | mp/src/utils/vbsp/StaticPropAdditions.cpp:705-713 | two builds of the same model, skin and solidity have the same rescale key bytes if and only if their scales have the same float bits |
| Grouping.QuantizeError | mp/src/utils/vbsp/StaticPropAdditions.cpp:982-989 | the quantised coordinate is within 0.005 of the original |
| Grouping.QuantizeOnGrid | mp/src/utils/vbsp/StaticPropAdditions.cpp:982-989 | a value already on the 1/100 grid is quantised to itself |
| Grouping.SnapYawProperties | mp/src/utils/vbsp/StaticPropAdditions.cpp:958-961 | the group's yaw is a multiple of 15 degrees within 7.5 of the average |
| Grouping.QuantizeAllError | mp/src/utils/vbsp/StaticPropAdditions.cpp:982-989 | each quantised coordinate, read back as hundredths, is within 0.005 of its input |
| Grouping.Place | mp/src/utils/vbsp/StaticPropAdditions.cpp:966-989 | a member's placement is three quantised origin and three quantised angle steps |
| Grouping.QuantizePlacement | mp/src/utils/vbsp/StaticPropAdditions.cpp:970-989 | the loop computes the member's quantised placement and the origin and angles rebuilt from it |
| Grouping.IntsBytes | mp/src/utils/vbsp/StaticPropAdditions.cpp:993-994 | an `int[3]` is fed as twelve bytes |
| Grouping.MemberKeyMatchesPlacement | mp/src/utils/vbsp/StaticPropAdditions.cpp:993-994 | a member's key bytes begin with its quantised origin and angles, and the placement used for combining is the same grid value |
| Grouping.MemberKeyIgnoresScale | mp/src/utils/vbsp/StaticPropAdditions.cpp:991-997 | a member's key bytes do not depend on its scale |
| Grouping.MemberKeyFloatIsOne | mp/src/utils/vbsp/StaticPropAdditions.cpp:991-997 | the float fed after name and skin is always 1.0f |
| BuildCache.HexDigits | mp/src/utils/vbsp/StaticPropAdditions.cpp:1230 | `%x` writes only hexadecimal digits |
| BuildCache.HexRunOfHex | mp/src/utils/vbsp/StaticPropAdditions.cpp:1230 | reading the digits written by `%x` gives the value back |
| BuildCache.HexFieldRoundTrip | mp/src/utils/vbsp/StaticPropAdditions.cpp:1321-1330 | the key field written as `0x%x` reads back by V_atoi64 to the key |
| BuildCache.SingleLineIsGroupLine | mp/src/utils/vbsp/StaticPropAdditions.cpp:1219-1234 | the single-model line is the group line of a one-model group, and none is written when the checksum cannot be read |
| BuildCache.Distinct | mp/src/utils/vbsp/StaticPropAdditions.cpp:1247-1262 | the models of a group line come from the group and none repeats an already written name |
| BuildCache.DistinctIsDistinct | mp/src/utils/vbsp/StaticPropAdditions.cpp:1247-1262 | no two models of a group line share a name, even up to letter case |
| BuildCache.DistinctCovers | mp/src/utils/vbsp/StaticPropAdditions.cpp:1247-1262 | every model of the group is on the line, up to letter case |
| BuildCache.WithChecksums | mp/src/utils/vbsp/StaticPropAdditions.cpp:1201-1217 | the checksums are available if and only if every model's checksum can be read, and then pair each model with its checksum |
| BuildCache.GroupCacheLine | mp/src/utils/vbsp/StaticPropAdditions.cpp:1236-1268 | the group overload's loop writes the line `GroupCacheLineOf` describes, which reads back by `CacheLineRoundTrip` |
| BuildCache.EntriesAppend | mp/src/utils/vbsp/StaticPropAdditions.cpp:1247-1262 | writing one more model appends its entry at the end |
| BuildCache.NextSeparator | mp/src/utils/vbsp/StaticPropAdditions.cpp:1275-1286 | the position found is at or after the start, inside the line or at its end, and holds a stop character |
| BuildCache.GetNextSeperatorPos | mp/src/utils/vbsp/StaticPropAdditions.cpp:1275-1286 | the scan loop finds the first stop at or after the position |
| BuildCache.ParseModels | mp/src/utils/vbsp/StaticPropAdditions.cpp:1299-1319 | an accepted model list ends at a separator inside the line |
| BuildCache.ParseTail | mp/src/utils/vbsp/StaticPropAdditions.cpp:1321-1343 | an accepted tail reports a length past the key and path fields |
| BuildCache.ParseLine | mp/src/utils/vbsp/StaticPropAdditions.cpp:1288-1344 | an accepted line reports a positive length at most one past its end |
| BuildCache.ParseModelList | mp/src/utils/vbsp/StaticPropAdditions.cpp:1299-1319 | the model loop ends where `ParseModels` ends, or rejects when it does |
| BuildCache.ModelsRejected | mp/src/utils/vbsp/StaticPropAdditions.cpp:1305-1316 | an unreadable checksum, a stale checksum or a list that runs off the line rejects the line |
| BuildCache.ModelsAdvance | mp/src/utils/vbsp/StaticPropAdditions.cpp:1305-1318 | a matching model entry hands the rest of the list to the next entry |
| BuildCache.ParseCacheLine | mp/src/utils/vbsp/StaticPropAdditions.cpp:1288-1344 | a rejected line returns 0 and leaves the map unchanged; an accepted line returns its length and maps its key to its path |
| BuildCache.InitCache | mp/src/utils/vbsp/StaticPropAdditions.cpp:1139-1199 | the kept lines and the key map are exactly those of the accepted lines, in file order |
| BuildCache.CacheLineRoundTrip | mp/src/utils/vbsp/StaticPropAdditions.cpp:1236-1344 | a written group line reads back as its key, path and length if and only if every model's checksum still matches and the output file exists; otherwise it is rejected |
| BuildCache.SingleLineRoundTrip | mp/src/utils/vbsp/StaticPropAdditions.cpp:1219-1344 | a written single-model line reads back as its key and path exactly when the model's checksum is unchanged and the output exists |
| BuildCache.ParseModelsOf | mp/src/utils/vbsp/StaticPropAdditions.cpp:1299-1319 | reading a written model list ends at its separator exactly when every checksum still matches |
| BuildCache.ParseTailOf | mp/src/utils/vbsp/StaticPropAdditions.cpp:1321-1343 | a written tail reads back as its key and path when the output file exists |
| BuildCache.LineParsed | mp/src/utils/vbsp/StaticPropAdditions.cpp:1288-1344 | a line laid out as the writer lays it out is accepted exactly when the checksums match and the file exists |
| StaticPropLump.IsStaticProp | mp/src/utils/vbsp/staticprop.cpp:319-341 | a model without the static flag is reported as such; one is valid if and only if it is flagged static and its prop data, if any, allows static use |
| StaticPropLump.LoadStudioModel | mp/src/utils/vbsp/staticprop.cpp:366-407 | a model loads if and only if its file reads, its ident is IDST or IDAG, its version is 48, and it is a valid static prop |
| StaticPropLump.DictName | mp/src/utils/vbsp/staticprop.cpp:348-360 | a dictionary entry is 128 bytes: the name followed by zeroes |
| StaticPropLump.FindFromEnd | mp/src/utils/vbsp/staticprop.cpp:353-357 | the backward search finds the last equal entry, or -1 exactly when there is none |
| StaticPropLump.DictAdd | mp/src/utils/vbsp/staticprop.cpp:348-360 | the returned index names the model's entry; a known name leaves the dictionary unchanged, a new one is appended at the end |
| StaticPropLump.DictAddKeepsUnique | mp/src/utils/vbsp/staticprop.cpp:348-360 | the dictionary never gains a duplicate and its entries stay 128 bytes |
| StaticPropLump.DictAddIdempotent | mp/src/utils/vbsp/staticprop.cpp:348-360 | registering the same model again returns the same index and changes nothing |
| StaticPropLump.DictNameInjective | mp/src/utils/vbsp/staticprop.cpp:348-360 | two names that fit in the entry have the same entry if and only if they are equal |
| StaticPropLump.CollisionKey | mp/src/utils/vbsp/staticprop.cpp:465-474 | the cache key is the name lower-cased with every backslash turned into a forward slash |
| StaticPropLump.CollisionMemo | mp/src/utils/vbsp/staticprop.cpp:479-503 | once a name's hull is cached, every name with the same key gets the same hull |
| StaticPropLump.CollisionKeyNormalises | mp/src/utils/vbsp/staticprop.cpp:465-474 | names that differ only in letter case and separator style share a key |
| StaticPropLump.FirstIndex | mp/src/utils/vbsp/staticprop.cpp:469 | strchr returns the first occurrence |
| StaticPropLump.LastLightingMatchWins | mp/src/utils/vbsp/staticprop.cpp:671-687 | the lighting origin is that of the last `info_lighting` entity with the target name |
| StaticPropLump.NoLightingMatch | mp/src/utils/vbsp/staticprop.cpp:671-687 | with no entity of that name, no lighting origin is found |
| StaticPropLump.PropFlagsBits | mp/src/utils/vbsp/staticprop.cpp:719-736 | the lump record has the fade flag if and only if the build fades out or had it, and the lighting-origin flag if and only if an origin was found or the build had it; other flags are copied |
| StaticPropLump.EmptyLightingNameUnlit | mp/src/utils/vbsp/staticprop.cpp:730-736 | a prop without a lighting-origin name never gets the lighting-origin flag |
| StaticPropLump.RegisterNothing | mp/src/utils/vbsp/staticprop.cpp:697-708 | a prop without a hull, or whose hull touches no leaf, adds nothing to any lump |
| StaticPropLump.RegisterAppends | mp/src/utils/vbsp/staticprop.cpp:693-749 | a registered prop appends one record carrying its dictionary entry, placement and lighting origin, and its leaves as a new range at the end of the leaf lump |
| StaticPropLump.RegisterKeepsValid | mp/src/utils/vbsp/staticprop.cpp:693-749 | registering a prop keeps the lumps consistent: unique 128-byte names, records naming entries, and leaf ranges that tile the leaf lump in order |
| StaticPropLump.LeafRangesDisjoint | mp/src/utils/vbsp/staticprop.cpp:740-747 | the leaf ranges of two props never overlap and lie inside the leaf lump |
| StaticPropLump.LeafBytes | mp/src/utils/vbsp/staticprop.cpp:774-776 | a leaf entry is two little-endian bytes of the leaf number |
| StaticPropLump.LumpImageSize | mp/src/utils/vbsp/staticprop.cpp:756-780 | the size allocated is exactly what is written: three counts plus 128 bytes per name, two per leaf and one record size per prop |
| StaticPropLump.Chunks | mp/src/utils/vbsp/staticprop.cpp:756-780 | a section read back has its count of equally sized entries |
| StaticPropLump.ChunksFlatten | mp/src/utils/vbsp/staticprop.cpp:756-780 | cutting a concatenation of equal parts gives the parts back |
| StaticPropLump.ReadSectionOf | mp/src/utils/vbsp/staticprop.cpp:756-780 | a count followed by its entries reads back as those entries and the rest |
| StaticPropLump.LumpImageRoundTrip | mp/src/utils/vbsp/staticprop.cpp:756-780 | reading the lump image back gives the dictionary, the leaves and the prop records it was written from |
| StaticPropLump.CollisionKeyOf | mp/src/utils/vbsp/staticprop.cpp:465-474 | the strchr loop produces the cache key |
| StaticPropLump.BackslashReplaced | mp/src/utils/vbsp/staticprop.cpp:469-474 | replacing one backslash keeps the slash-fixed name and leaves fewer backslashes, so the loop ends |
| StaticPropLump.PropLumps.constructor | mp/src/utils/vbsp/staticprop.cpp:1322-1331 | the pass starts with empty lumps and cache and the collected lighting entities |
| StaticPropLump.PropLumps.AddStaticPropDictLump | mp/src/utils/vbsp/staticprop.cpp:348-360 | adding a name updates the dictionary as specified and touches nothing else |
| StaticPropLump.PropLumps.GetCollisionModel | mp/src/utils/vbsp/staticprop.cpp:462-524 | the hull comes from the cache when the key is known, from loading otherwise, and the cache then maps the key to it |
| StaticPropLump.PropLumps.ComputeLightingOrigin | mp/src/utils/vbsp/staticprop.cpp:671-687 | the backward loop finds an origin exactly when one matches, and then the last match's |
| StaticPropLump.PropLumps.LightingOriginFor | mp/src/utils/vbsp/staticprop.cpp:730-736 | only a non-empty lighting-origin name is looked up |
| StaticPropLump.PropLumps.AppendLeaves | mp/src/utils/vbsp/staticprop.cpp:742-747 | the leaves are appended in order and nothing else changes |
| StaticPropLump.PropLumps.AddStaticPropToLump | mp/src/utils/vbsp/staticprop.cpp:693-749 | the lumps become `Register` of the old lumps with the cached or loaded hull, and the cache records the hull |
| PropCombine.StripExtension | mp/src/utils/vbsp/StaticPropAdditions.cpp:573 | the stripped name is a prefix of the name |
| PropCombine.Decompile | mp/src/utils/vbsp/StaticPropAdditions.cpp:534-619 | a model yields a descriptor if and only if the decompiler succeeds and the written QC is accepted |
| PropCombine.FileQc | mp/src/utils/vbsp/StaticPropAdditions.cpp:609-610 | inserting a descriptor under its lower-cased path keeps an entry already filed there and returns it; otherwise the new descriptor is filed and returned |
| PropCombine.FileQcIdempotent | mp/src/utils/vbsp/StaticPropAdditions.cpp:609-610 | inserting the same descriptor twice is inserting it once |
| PropCombine.QcLookup | mp/src/utils/vbsp/StaticPropAdditions.cpp:746-757 | a known model's descriptor comes from the memo; otherwise it is decompiled, a failure changes nothing, and a success yields the entry `FileQc` leaves under the descriptor's path, which is the stored one when that path was already filed |
| PropCombine.SmdLookup | mp/src/utils/vbsp/StaticPropAdditions.cpp:761-782 | a known model's meshes come from the memo; otherwise they are loaded and stored under the model's name |
| PropCombine.Compiled | mp/src/utils/vbsp/StaticPropAdditions.cpp:625-694 | a failed compile halts the program; a successful one registers a build that names the generated model and takes the given placement |
| PropCombine.RescaleWithoutCompile | mp/src/utils/vbsp/StaticPropAdditions.cpp:698-725 | a unit scale registers the prop as it is, and a known key registers it under the model compiled before; nothing else changes |
| PropCombine.RescaleWithoutDecompile | mp/src/utils/vbsp/StaticPropAdditions.cpp:746-757 | a prop whose model cannot be decompiled is registered unscaled |
| PropCombine.RescaleCompiles | mp/src/utils/vbsp/StaticPropAdditions.cpp:727-804 | a rescale that compiles registers the prop under the new model, records its key and path, and writes one cache line when the checksum can be read |
| PropCombine.CompileScaledCompiles | mp/src/utils/vbsp/StaticPropAdditions.cpp:800-803 | after a successful compile the prop is registered under the new model and the key map and cache record it |
| PropCombine.CompiledNameClean | mp/src/utils/vbsp/StaticPropAdditions.cpp:653-660 | the generated model name is non-empty and contains no separator or line break |
| PropCombine.RescaleLineReadBack | mp/src/utils/vbsp/StaticPropAdditions.cpp:800-803 | the cache line a rescale writes reads back, in a later run, as its key and path exactly when the model is unchanged and the output exists |
| PropCombine.Scan | mp/src/utils/vbsp/StaticPropAdditions.cpp:927-945 | the brush loop keeps one flag per build |
| PropCombine.Gathered | mp/src/utils/vbsp/StaticPropAdditions.cpp:897-946 | the first loop keeps one flag per build |
| PropCombine.Mean | mp/src/utils/vbsp/StaticPropAdditions.cpp:958-959 | the average times the group size gives back the running sum |
| PropCombine.Mixed | mp/src/utils/vbsp/StaticPropAdditions.cpp:1039-1117 | the combine loop keeps one flag per build |
| PropCombine.Merged | mp/src/utils/vbsp/StaticPropAdditions.cpp:958-1124 | merging keeps one flag per build |
| PropCombine.Grouped | mp/src/utils/vbsp/StaticPropAdditions.cpp:887-1125 | a volume pass keeps one flag per build |
| PropCombine.ScanAppendsPerBrush | mp/src/utils/vbsp/StaticPropAdditions.cpp:927-945 | a prop touching n brushes is appended n times, its origin and yaw are added n times, and it is marked once it touches one |
| PropCombine.GatheredMarks | mp/src/utils/vbsp/StaticPropAdditions.cpp:897-946 | the first loop only marks builds it appends to the group, and only extends the group |
| PropCombine.MixedKeeps | mp/src/utils/vbsp/StaticPropAdditions.cpp:1039-1117 | the combine loop changes only the memos and never unmarks a build |
| PropCombine.MergedMarks | mp/src/utils/vbsp/StaticPropAdditions.cpp:1116 | merging never unmarks a build |
| PropCombine.GroupedMarks | mp/src/utils/vbsp/StaticPropAdditions.cpp:887-1125 | a volume pass never unmarks a build, and every build it gathered was unmarked before and is marked after |
| PropCombine.RegisteredPlacement | mp/src/utils/vbsp/staticprop.cpp:710-728 | registering adds at most one record, at the end, with the build's origin and angles |
| PropCombine.MergedPlacement | mp/src/utils/vbsp/StaticPropAdditions.cpp:958-1124 | a merged group adds at most one record, placed at the group's mean origin with the snapped mean yaw |
| PropCombine.MergeKeyIgnoresScales | mp/src/utils/vbsp/StaticPropAdditions.cpp:966-1000 | the group key does not depend on the members' scales |
| PropCombine.MemberModelsClean | mp/src/utils/vbsp/StaticPropAdditions.cpp:1247-1262 | when every member's checksum reads, the group line has checksums for its distinct models |
| PropCombine.MergedRecords | mp/src/utils/vbsp/StaticPropAdditions.cpp:1119-1124 | a new group that compiles writes one group cache line and maps its key to the generated model |
| PropCombine.MergeCompiledRecords | mp/src/utils/vbsp/StaticPropAdditions.cpp:1119-1124 | the cache line and key entry after a group compile |
| PropCombine.MergeLineReadBack | mp/src/utils/vbsp/StaticPropAdditions.cpp:1119-1124 | the cache line a merge writes, read back in a later run, is accepted as its key and path exactly when all member checksums still match and the output exists |
| CombinePass.Combiner.constructor | mp/src/utils/vbsp/StaticPropAdditions.cpp:887-888 | the pass starts from the lumps, the QC memo and the key map it is given, with an empty mesh memo and no cache line written |
| CombinePass.Combiner.AddToLump | mp/src/utils/vbsp/staticprop.cpp:693-749 | registering a prop updates the state as specified |
| CombinePass.Combiner.DecompileModel | mp/src/utils/vbsp/StaticPropAdditions.cpp:534-619 | succeeds exactly when `Decompile` does; the memo and the returned descriptor are those of `FileQc`, so an entry already filed under the path is kept and returned; a failure leaves the memo unchanged |
| CombinePass.Combiner.FindOrDecompile | mp/src/utils/vbsp/StaticPropAdditions.cpp:746-757 | the lookup agrees with `QcLookup`, state and result |
| CombinePass.Combiner.FindOrLoadSmds | mp/src/utils/vbsp/StaticPropAdditions.cpp:761-782 | the mesh lookup agrees with `SmdLookup`, state and result |
| CombinePass.Combiner.CompileAndAddToLump | mp/src/utils/vbsp/StaticPropAdditions.cpp:625-694 | compiling and registering agree with `Compiled`, including the halt |
| CombinePass.Combiner.RecordCompiled | mp/src/utils/vbsp/StaticPropAdditions.cpp:800-803 | the cache line and the key entry after a compile |
| CombinePass.Combiner.ScaledMesh | mp/src/utils/vbsp/StaticPropAdditions.cpp:784-798 | a loaded mesh combined into an empty one with the scale |
| CombinePass.Combiner.ScaleMeshes | mp/src/utils/vbsp/StaticPropAdditions.cpp:784-798 | the scaled reference and collision meshes |
| CombinePass.Combiner.ScalePropAndAddToLump | mp/src/utils/vbsp/StaticPropAdditions.cpp:730-804 | rescaling a prop updates the state as specified |
| CombinePass.Combiner.ScaleLoadedAndAddToLump | mp/src/utils/vbsp/StaticPropAdditions.cpp:761-804 | the rest of a rescale once the descriptor is known |
| CombinePass.Combiner.AddStaticPropToLumpWithScaling | mp/src/utils/vbsp/StaticPropAdditions.cpp:696-728 | registering with scaling updates the state as specified |
| CombinePass.Combiner.ScanBrushes | mp/src/utils/vbsp/StaticPropAdditions.cpp:927-945 | the brush loop over one prop agrees with `Scan` |
| CombinePass.Combiner.CollectProp | mp/src/utils/vbsp/StaticPropAdditions.cpp:897-946 | one pass of the first loop agrees with `GatherOne` |
| CombinePass.Combiner.CollectWithHull | mp/src/utils/vbsp/StaticPropAdditions.cpp:906-945 | the rest of a pass once the hull is looked up |
| CombinePass.Combiner.MergeKey | mp/src/utils/vbsp/StaticPropAdditions.cpp:966-1000 | the key loop computes the CRC of the group's member key bytes |
| CombinePass.Combiner.MixMember | mp/src/utils/vbsp/StaticPropAdditions.cpp:1039-1117 | one pass of the combine loop agrees with `MixOne` |
| CombinePass.Combiner.MixLoadedMember | mp/src/utils/vbsp/StaticPropAdditions.cpp:1060-1116 | the rest of a combine pass once the descriptor is known |
| CombinePass.Combiner.CombineMember | mp/src/utils/vbsp/StaticPropAdditions.cpp:1085-1110 | one member's meshes appended at its quantised placement and scale |
| CombinePass.Combiner.CombineGroup | mp/src/utils/vbsp/StaticPropAdditions.cpp:1039-1117 | the combine loop builds, from empty meshes, the meshes `Mixed` describes |
| CombinePass.Combiner.MergeGroup | mp/src/utils/vbsp/StaticPropAdditions.cpp:958-1124 | merging a gathered group agrees with `Merged` |
| CombinePass.Combiner.GroupPropsForVolume | mp/src/utils/vbsp/StaticPropAdditions.cpp:887-1125 | the whole volume pass over one key group agrees with `Grouped`, count of new props included |
| Emit.Collected | mp/src/utils/vbsp/staticprop.cpp:1341-1434 | the entity loop yields at most one build or volume per entity |
| Emit.CollectEntities | mp/src/utils/vbsp/staticprop.cpp:1341-1434 | the loop collects the builds and volumes `Collected` describes, with every build not accounted for |
| Emit.EntityBuildFields | mp/src/utils/vbsp/staticprop.cpp:1352-1419 | a build fades out exactly when its fade distance is positive; fade minimum, fade scale, lightmap resolution and DX levels follow the entity's keys as stated |
| Emit.EntityFlagBits | mp/src/utils/vbsp/staticprop.cpp:1360-1388 | each prop flag is set exactly when its key has the triggering value, and no other flag is set |
| Emit.Where | mp/src/utils/vbsp/staticprop.cpp:1345-1347 | the listed entities are in range and match |
| Emit.WhereAscending | mp/src/utils/vbsp/staticprop.cpp:1345-1347 | the entities are listed in increasing order, so each once |
| Emit.WhereComplete | mp/src/utils/vbsp/staticprop.cpp:1345-1347 | every matching entity is listed |
| Emit.CollectedVolumes | mp/src/utils/vbsp/staticprop.cpp:1345-1347 | the volume list is exactly the combine-volume entities, in order |
| Emit.CollectedBuilds | mp/src/utils/vbsp/staticprop.cpp:1350-1422 | the build list is one build per prop entity, in order |
| Emit.GroupIndex | mp/src/utils/vbsp/staticprop.cpp:1484 | the position of the group with the key, or the count when none has it |
| Emit.FileUnderKey | mp/src/utils/vbsp/staticprop.cpp:1484-1495 | filing a build under a key appends it to that key's group, creating it when new |
| Emit.GroupingKeysAt | mp/src/utils/vbsp/staticprop.cpp:1473 | the key of build i is that build's grouping key |
| Emit.Classified | mp/src/utils/vbsp/staticprop.cpp:1467-1496 | the filing loop keeps one flag per build and one variable set per build read |
| Emit.GroupsOf | mp/src/utils/vbsp/staticprop.cpp:1484-1495 | the groups name only builds read so far |
| Emit.AddUnloaded | mp/src/utils/vbsp/staticprop.cpp:1475-1482 | a build whose model does not load is registered at once and marked |
| Emit.FileBuild | mp/src/utils/vbsp/staticprop.cpp:1467-1496 | one pass of the filing loop agrees with `Classified` and `GroupsOf` for one more build |
| Emit.ClassifyBuilds | mp/src/utils/vbsp/staticprop.cpp:1467-1496 | the filing loop registers the unloaded builds, collects every build's variables and files the rest |
| Emit.ClassifiedMarks | mp/src/utils/vbsp/staticprop.cpp:1467-1496 | after the filing loop a build is marked exactly when its model did not load, and the variables are each build's, in order |
| Emit.ClassifiedRegisters | mp/src/utils/vbsp/staticprop.cpp:1475-1482 | the filing loop registers exactly the builds whose model did not load, in order |
| Emit.BucketEntries | mp/src/utils/vbsp/staticprop.cpp:1484-1495 | filing changes only the key's own group, which is created at the end when new |
| Emit.FiledSkips | mp/src/utils/vbsp/staticprop.cpp:1475-1482 | a build whose model did not load is filed nowhere |
| Emit.GroupIndexOf | mp/src/utils/vbsp/staticprop.cpp:1484 | among distinct keys, a group's key is found at that group |
| Emit.GroupsFiled | mp/src/utils/vbsp/staticprop.cpp:1467-1496 | the groups have distinct keys; each lists in increasing order exactly the loaded builds with its key |
| Emit.GroupsDone | mp/src/utils/vbsp/staticprop.cpp:1533-1538 | a volume's pass over its groups keeps one flag per build |
| Emit.VolumesDone | mp/src/utils/vbsp/staticprop.cpp:1521-1539 | the pass over every volume keeps one flag per build |
| Emit.GroupVolume | mp/src/utils/vbsp/staticprop.cpp:1533-1538 | the group loop of one volume agrees with `GroupsDone` |
| Emit.CombineVolumes | mp/src/utils/vbsp/staticprop.cpp:1521-1539 | the volume loop agrees with `VolumesDone` |
| Emit.GroupsDoneHalted | mp/src/utils/vbsp/StaticPropAdditions.cpp:678-681 | after a fatal Error, the remaining groups change nothing |
| Emit.VolumesDoneHalted | mp/src/utils/vbsp/StaticPropAdditions.cpp:678-681 | after a fatal Error, the remaining volumes change nothing |
| Emit.GroupsDoneMarks | mp/src/utils/vbsp/staticprop.cpp:1533-1538 | within a volume, a build once accounted for stays accounted for |
| Emit.VolumesDoneMarks | mp/src/utils/vbsp/staticprop.cpp:1521-1539 | across volumes, a build once accounted for stays accounted for |
| Emit.AddUngrouped | mp/src/utils/vbsp/staticprop.cpp:1546-1552 | every build still not accounted for is registered, in order |
| Emit.AddAll | mp/src/utils/vbsp/staticprop.cpp:1565-1568 | without volumes every build is registered, in order |
| Emit.RegisterAllKeepsCache | mp/src/utils/vbsp/staticprop.cpp:1565-1568 | registering props writes no cache line |
| Emit.RegisterUnmarkedKeepsCache | mp/src/utils/vbsp/staticprop.cpp:1546-1552 | the closing registration loop writes no cache line |
| Emit.EmitStaticProps | mp/src/utils/vbsp/staticprop.cpp:1305-1583 | the whole pass leaves the lumps and collision cache of `Emitted`, which `EmittedWithoutVolumes` and `EmittedWithVolumes` describe, and returns exactly the cache lines `Emitted` records as written |
| Emit.RegisterAllAppend | mp/src/utils/vbsp/staticprop.cpp:1546-1552 | registering a list in two parts is registering it whole |
| Emit.EmittedWithoutVolumes | mp/src/utils/vbsp/staticprop.cpp:1563-1569 | a map without a combine volume gets exactly the plain pass: every prop entity registered in entity order |
| Emit.EmittedWithVolumes | mp/src/utils/vbsp/staticprop.cpp:1438-1562 | with a volume, unloaded props are registered first, then the volumes are combined in entity order, then the props still not accounted for are registered, unless an Error halted the program |
| Emit.UnloadedRegistered | mp/src/utils/vbsp/staticprop.cpp:1475-1482 | the filing loop's registrations are those of the builds whose model did not load |

## Left out

- File and process I/O: reading scripts and `.mdl` files, `SearchQCs`, spawning the decompiler and the compiler, and writing and closing the cache file. The decompiler and compiler are exit results of `CombineWorld`. Save_SMD_Static, SaveQCFile and SaveSampleAnimFile are folded into the compiler's input (meshes, build variables, model path).
- The tokenizer `GetToken`: a script arrives as its token sequence, or None when it cannot be opened or read.
- Floating point: floats and doubles are reals. The grouping and merge keys take the float's bytes from `CombineWorld.floatBits`; the one constant float, 1.0f, is written out.
- CRC-32, `AngleMatrix` (the trigonometry), the physics collision interface (hull building and `CollideGetAABB`), brush intersection and the BSP leaf walk `ComputeConvexHullLeaves_R` are parameters.
- `Error()` ends the program; the model records it as the `halted` flag and then changes nothing more.
- Entities are key/value maps. `IntForKey`, `FloatForKey` and the vector readers are parameters.
- Entity stripping after the pass (staticprop.cpp:1432, 1556-1561, 1575-1579) and the final `SetLumpData` call's write into the BSP file are not modelled; the lump image it builds is (`StaticPropLump.LumpImageRoundTrip`).
- `StaticPropBuild_t::m_Scale` is never assigned by the entity loop. The model takes each prop's scale as a parameter `scaleOf`.
- The check `vecBuildAccountedFor[i]` at staticprop.cpp:1470-1471 is dead: every flag is false there. The model omits it.
- staticprop.cpp calls its own string-valued `GetGroupingKey` (staticprop.cpp:836-906) and its own copies of the combine helpers (staticprop.cpp:914-1293). The model uses the CRC-keyed versions of StaticPropAdditions.cpp throughout.
- `CUtlHashDict` iteration order is modelled as the order in which keys first appear. Its `Insert` (tier1, not part of this model) is taken to keep an entry already stored under the key and to return that entry's handle (`PropCombine.FileQc`).
- Debug output (`Msg`), the motion-mapper globals set before the volume loop, and the physics-factory lookup at the start of `EmitStaticProps` are left out.
- `EmitStaticProps` requires the lighting list to be exactly the `info_lighting` entities of the map. This is how the lighting loop at staticprop.cpp:1322-1331 fills it.
- V_FixDoubleSlashes and V_atoi64 come from a library that is not part of this model. They are modelled after the SDK's routines: one pass from index 1 that removes the first of two adjacent slashes and moves on, and an optional sign, `0x` hexadecimal or decimal, truncated to 32 bits.
- QcParser.NormalizedPathNoDoubleSlash: the "no doubled slash" promise is stated only for names that have no run of three slashes once `models/` is put in front, because the one-pass routine leaves `//` behind a triple slash (`QcParser.TripleSlashLeavesDouble`). A name starting with `//` is such a case: `models///x` becomes `models//x`.
- BuildCache.CombinedFrom: when two cache lines carry the same key, the model keeps the later line's path. `CUtlMap::Insert` keeps both entries, and which one a later `Find` returns depends on the tree's layout; the model does not capture duplicate keys.
- BuildCache.CacheLineRoundTrip, BuildCache.SingleLineRoundTrip, PropCombine.RescaleLineReadBack and PropCombine.MergeLineReadBack state the read-back for lines of any length. In the source a line lives in a buffer of `MAX_CACHE_LINE` (1638) bytes: the single-model `WriteCacheLine` truncates a longer line, the group overload passes the full `MAX_CACHE_LINE` as the size at an offset and so can overrun the buffer, and `ReadLine` splits a longer line in two. `BuildCache.InitCache` takes lines shorter than `MAX_CACHE_LINE`, as `ReadLine` delivers them.
- BuildCache.ParseLine: `V_strncpy` is passed the field's own length plus one as its count, so nothing is truncated: a checksum or key field longer than 10 characters overruns the 11-byte `tmpString`, and a name of `MAX_PATH` or more characters overruns its path buffer (undefined behaviour). The model reads each field whole. Where the source reads a character past a line's terminator (leftover bytes of the buffer), the model rejects the line.
- QcParser.ParseResult: the model name read by `sscanf_s(token, "%s", ...)`, which passes no buffer size, and the paths built in `MAX_PATH` buffers by `V_snprintf` and `V_strncpy` are kept whole; the source's truncation at `MAX_PATH` is not modelled.
- StaticPropLump.PropRecord: `m_PropType`, `m_FirstLeaf` and `m_LeafCount` are unsigned shorts in `StaticPropLump_t` (gamebspfile.h, which is not part of this model); the model keeps them as unbounded naturals and does not model their wrap-around past 65535.
- `EmitStaticProps` in staticprop.cpp calls a local `GroupPropsForVolume` without the mesh memo and the key map. The model passes it the StaticPropAdditions.cpp signature's arguments: the QC memo `SearchQCs` fills, the key map `InitCache` reads, and a mesh memo that starts empty.
- The QC and mesh memos are keyed on the lower-cased name, as the dictionaries compare names without regard to case.
- The copies of `QCFile_t` in staticprop.cpp (staticprop.cpp:98-276) duplicate the StaticPropAdditions.cpp constructor and are not modelled separately.
