/**
 * Triangle meshes as the combiner handles them (s_source_t): parallel vertex,
 * normal and texture-coordinate arrays and a face array whose corners index
 * the vertex arrays. reallocMeshSource grows the arrays and CombineMeshes
 * appends one mesh, placed in the destination's frame, to another.
 */
module Mesh {
  import opened Common

  /** s_face_t: three vertex indices and a material. */
  datatype Face = Face(a: nat, b: nat, c: nat, material: int)

  /** The face calloc leaves in a new slot. */
  const ZeroFace: Face := Face(0, 0, 0, 0)

  function Corner(f: Face, k: nat): nat
    requires k < 3
  {
    if k == 0 then f.a else if k == 1 then f.b else f.c
  }

  function WithCorner(f: Face, k: nat, v: nat): (r: Face)
    requires k < 3
    ensures Corner(r, k) == v && r.material == f.material
    ensures forall j :: 0 <= j < 3 && j != k ==> Corner(r, j) == Corner(f, j)
  {
    if k == 0 then f.(a := v) else if k == 1 then f.(b := v) else f.(c := v)
  }

  function CornerSeq(f: Face): seq<nat> { [f.a, f.b, f.c] }

  /** Every corner of a face sequence, face by face. */
  function Corners(faces: seq<Face>): seq<nat>
  {
    if faces == [] then [] else Corners(faces[..|faces| - 1]) + CornerSeq(faces[|faces| - 1])
  }

  /** A face with every vertex index moved up by `offset`. */
  function Shift(f: Face, offset: nat): (r: Face)
    ensures forall k :: 0 <= k < 3 ==> Corner(r, k) == Corner(f, k) + offset
    ensures r.material == f.material
  {
    Face(f.a + offset, f.b + offset, f.c + offset, f.material)
  }

  /** The contents of an s_source_t's four arrays. */
  datatype MeshData = MeshData(vertex: seq<Vec3>, normal: seq<Vec3>, texcoord: seq<Vec2>, face: seq<Face>)

  predicate Parallel(m: MeshData)
  {
    |m.normal| == |m.vertex| && |m.texcoord| == |m.vertex|
  }

  /** Parallel arrays and every face corner a valid vertex index. */
  predicate WellFormed(m: MeshData)
  {
    Parallel(m) &&
    forall i, k :: 0 <= i < |m.face| && 0 <= k < 3 ==> Corner(m.face[i], k) < |m.vertex|
  }

  /** Where an added mesh goes: CombineMeshes' origin, angles and scale. */
  datatype Placement = Placement(origin: Vec3, angles: Angles, scale: real)

  /** The fixed quarter turn about the vertical axis applied before placement. */
  const QuarterTurn: Angles := Angles(0.0, 90.0, 0.0)

  /** A position: turned, scaled, rotated by the placement angles, then moved. */
  function PlaceVertex(p: Placement, angleMatrix: AngleMatrix, v: Vec3): Vec3
  {
    Add3(VectorTransform(Scale3(p.scale, VectorTransform(v, angleMatrix(QuarterTurn))), angleMatrix(p.angles)), p.origin)
  }

  /** A normal: turned and rotated, never scaled or moved. */
  function PlaceNormal(p: Placement, angleMatrix: AngleMatrix, n: Vec3): Vec3
  {
    VectorTransform(VectorTransform(n, angleMatrix(QuarterTurn)), angleMatrix(p.angles))
  }

  /** reallocMeshSource: every array grows, old entries kept, new ones zero. */
  function Grow(d: MeshData, addVerts: nat, addFaces: nat): (r: MeshData)
    ensures |r.vertex| == |d.vertex| + addVerts && |r.face| == |d.face| + addFaces
    ensures r.vertex[..|d.vertex|] == d.vertex && r.face[..|d.face|] == d.face
    ensures forall k :: |d.vertex| <= k < |r.vertex| ==> r.vertex[k] == Zero3
    ensures |r.normal| == |d.normal| + addVerts && r.normal[..|d.normal|] == d.normal
    ensures forall k :: |d.normal| <= k < |r.normal| ==> r.normal[k] == Zero3
    ensures |r.texcoord| == |d.texcoord| + addVerts && r.texcoord[..|d.texcoord|] == d.texcoord
    ensures forall k :: |d.texcoord| <= k < |r.texcoord| ==> r.texcoord[k] == Zero2
    ensures forall k :: |d.face| <= k < |r.face| ==> r.face[k] == ZeroFace
    ensures Parallel(d) ==> Parallel(r)
  {
    MeshData(d.vertex + seq(addVerts, _ => Zero3), d.normal + seq(addVerts, _ => Zero3),
             d.texcoord + seq(addVerts, _ => Zero2), d.face + seq(addFaces, _ => ZeroFace))
  }

  /**
   * CombineMeshes(combined, addition, origin, angles, scale) as a value: the
   * slots of added vertices some added face uses hold the placed vertex, the
   * others keep calloc's zero, and added faces are shifted past the
   * destination's vertices.
   */
  function Combine(d: MeshData, add: MeshData, p: Placement, angleMatrix: AngleMatrix): (r: MeshData)
    requires Parallel(add)
    ensures |add.vertex| == 0 ==> r == d
    ensures |add.vertex| > 0 ==>
      |r.vertex| == |d.vertex| + |add.vertex| && |r.normal| == |d.normal| + |add.vertex| &&
      |r.texcoord| == |d.texcoord| + |add.vertex| && |r.face| == |d.face| + |add.face|
    ensures r.vertex[..|d.vertex|] == d.vertex && r.normal[..|d.normal|] == d.normal
    ensures r.texcoord[..|d.texcoord|] == d.texcoord && r.face[..|d.face|] == d.face
  {
    if |add.vertex| == 0 then d
    else
      var refs := Corners(add.face);
      MeshData(d.vertex + VertexSlots(add, p, angleMatrix, refs), d.normal + NormalSlots(add, p, angleMatrix, refs),
               d.texcoord + TexcoordSlots(add, refs), d.face + ShiftedFaces(add.face, |d.vertex|))
  }

  /** The added-vertex slots: slot k holds the placed vertex k when some corner
      in `refs` names it, and zero otherwise (SlotAt). */
  function VertexSlots(add: MeshData, p: Placement, angleMatrix: AngleMatrix, refs: seq<nat>): (r: seq<Vec3>)
    ensures |r| == |add.vertex|
  {
    VertexSlotsUpTo(add, p, angleMatrix, refs, |add.vertex|)
  }

  function VertexSlotsUpTo(add: MeshData, p: Placement, angleMatrix: AngleMatrix, refs: seq<nat>, n: nat): (r: seq<Vec3>)
    requires n <= |add.vertex|
    ensures |r| == n
  {
    if n == 0 then []
    else VertexSlotsUpTo(add, p, angleMatrix, refs, n - 1) + [if n - 1 in refs then PlaceVertex(p, angleMatrix, add.vertex[n - 1]) else Zero3]
  }

  function NormalSlots(add: MeshData, p: Placement, angleMatrix: AngleMatrix, refs: seq<nat>): (r: seq<Vec3>)
    requires Parallel(add)
    ensures |r| == |add.vertex|
  {
    NormalSlotsUpTo(add, p, angleMatrix, refs, |add.vertex|)
  }

  function NormalSlotsUpTo(add: MeshData, p: Placement, angleMatrix: AngleMatrix, refs: seq<nat>, n: nat): (r: seq<Vec3>)
    requires Parallel(add) && n <= |add.vertex|
    ensures |r| == n
  {
    if n == 0 then []
    else NormalSlotsUpTo(add, p, angleMatrix, refs, n - 1) + [if n - 1 in refs then PlaceNormal(p, angleMatrix, add.normal[n - 1]) else Zero3]
  }

  function TexcoordSlots(add: MeshData, refs: seq<nat>): (r: seq<Vec2>)
    requires Parallel(add)
    ensures |r| == |add.vertex|
    ensures forall k :: 0 <= k < |add.vertex| ==> r[k] == if k in refs then add.texcoord[k] else Zero2
  {
    TexcoordSlotsUpTo(add, refs, |add.vertex|)
  }

  function TexcoordSlotsUpTo(add: MeshData, refs: seq<nat>, n: nat): (r: seq<Vec2>)
    requires Parallel(add) && n <= |add.vertex|
    ensures |r| == n
    ensures forall k :: 0 <= k < n ==> r[k] == if k in refs then add.texcoord[k] else Zero2
  {
    if n == 0 then []
    else TexcoordSlotsUpTo(add, refs, n - 1) + [if n - 1 in refs then add.texcoord[n - 1] else Zero2]
  }

  function ShiftedFaces(faces: seq<Face>, offset: nat): (r: seq<Face>)
    ensures |r| == |faces|
    ensures forall i :: 0 <= i < |faces| ==> r[i] == Shift(faces[i], offset)
  {
    if faces == [] then [] else ShiftedFaces(faces[..|faces| - 1], offset) + [Shift(faces[|faces| - 1], offset)]
  }

  /** The corners of faces[..fi] followed by the first `vert` corners of faces[fi]. */
  function CornersUpTo(faces: seq<Face>, fi: nat, vert: nat): seq<nat>
    requires fi < |faces| && vert <= 3
  {
    Corners(faces[..fi]) + CornerSeq(faces[fi])[..vert]
  }

  /** A face whose first m corners have been shifted. */
  function ShiftFirst(f: Face, offset: nat, m: nat): Face
  {
    Face(if m > 0 then f.a + offset else f.a, if m > 1 then f.b + offset else f.b,
         if m > 2 then f.c + offset else f.c, f.material)
  }

  lemma CornersUpToStart(faces: seq<Face>, fi: nat)
    requires fi < |faces|
    ensures CornersUpTo(faces, fi, 0) == Corners(faces[..fi])
    ensures CornersUpTo(faces, fi, 3) == Corners(faces[..fi + 1])
  {
    assert faces[..fi + 1][..fi] == faces[..fi];
  }

  /** One corner of the loop: the corner read is the original one, it joins
      the referenced corners, and the face gains one more shifted corner. */
  lemma CornerStep(faces: seq<Face>, fi: nat, vert: nat, offset: nat)
    requires fi < |faces| && vert < 3
    ensures Corner(ShiftFirst(faces[fi], offset, vert), vert) == Corner(faces[fi], vert)
    ensures CornersUpTo(faces, fi, vert + 1) == CornersUpTo(faces, fi, vert) + [Corner(faces[fi], vert)]
    ensures WithCorner(ShiftFirst(faces[fi], offset, vert), vert, Corner(faces[fi], vert) + offset)
            == ShiftFirst(faces[fi], offset, vert + 1)
    ensures ShiftFirst(faces[fi], offset, 3) == Shift(faces[fi], offset)
  {
    assert CornerSeq(faces[fi])[..vert + 1] == CornerSeq(faces[fi])[..vert] + [Corner(faces[fi], vert)];
  }

  /** Slot k of the first n vertex and normal slots. */
  lemma {:induction false} SlotsUpToAt(add: MeshData, p: Placement, angleMatrix: AngleMatrix, refs: seq<nat>, n: nat, k: nat)
    requires Parallel(add) && k < n <= |add.vertex|
    ensures VertexSlotsUpTo(add, p, angleMatrix, refs, n)[k] == if k in refs then PlaceVertex(p, angleMatrix, add.vertex[k]) else Zero3
    ensures NormalSlotsUpTo(add, p, angleMatrix, refs, n)[k] == if k in refs then PlaceNormal(p, angleMatrix, add.normal[k]) else Zero3
  {
    if k < n - 1 {
      SlotsUpToAt(add, p, angleMatrix, refs, n - 1, k);
    }
  }

  /** Slot k holds the placed vertex and normal when a corner in `refs` names
      vertex k, and zero otherwise. */
  lemma SlotAt(add: MeshData, p: Placement, angleMatrix: AngleMatrix, refs: seq<nat>, k: nat)
    requires Parallel(add) && k < |add.vertex|
    ensures VertexSlots(add, p, angleMatrix, refs)[k] == if k in refs then PlaceVertex(p, angleMatrix, add.vertex[k]) else Zero3
    ensures NormalSlots(add, p, angleMatrix, refs)[k] == if k in refs then PlaceNormal(p, angleMatrix, add.normal[k]) else Zero3
  {
    SlotsUpToAt(add, p, angleMatrix, refs, |add.vertex|, k);
  }

  /** Writing corner k's slot turns the slots for `refs` into those for refs + [k]. */
  lemma SlotsExtend(add: MeshData, p: Placement, angleMatrix: AngleMatrix, refs: seq<nat>, k: nat)
    requires Parallel(add) && k < |add.vertex|
    ensures VertexSlots(add, p, angleMatrix, refs + [k]) == VertexSlots(add, p, angleMatrix, refs)[k := PlaceVertex(p, angleMatrix, add.vertex[k])]
    ensures NormalSlots(add, p, angleMatrix, refs + [k]) == NormalSlots(add, p, angleMatrix, refs)[k := PlaceNormal(p, angleMatrix, add.normal[k])]
    ensures TexcoordSlots(add, refs + [k]) == TexcoordSlots(add, refs)[k := add.texcoord[k]]
  {
    forall i | 0 <= i < |add.vertex|
      ensures VertexSlots(add, p, angleMatrix, refs + [k])[i] == VertexSlots(add, p, angleMatrix, refs)[k := PlaceVertex(p, angleMatrix, add.vertex[k])][i]
      ensures NormalSlots(add, p, angleMatrix, refs + [k])[i] == NormalSlots(add, p, angleMatrix, refs)[k := PlaceNormal(p, angleMatrix, add.normal[k])][i]
    {
      SlotAt(add, p, angleMatrix, refs + [k], i);
      SlotAt(add, p, angleMatrix, refs, i);
    }
  }

  /** Before any corner is written every added slot is zero. */
  lemma SlotsNone(add: MeshData, p: Placement, angleMatrix: AngleMatrix)
    requires Parallel(add)
    ensures VertexSlots(add, p, angleMatrix, []) == seq(|add.vertex|, _ => Zero3)
    ensures NormalSlots(add, p, angleMatrix, []) == seq(|add.vertex|, _ => Zero3)
    ensures TexcoordSlots(add, []) == seq(|add.vertex|, _ => Zero2)
  {
    forall i | 0 <= i < |add.vertex|
      ensures VertexSlots(add, p, angleMatrix, [])[i] == Zero3 && NormalSlots(add, p, angleMatrix, [])[i] == Zero3
    {
      SlotAt(add, p, angleMatrix, [], i);
    }
  }

  /** An s_source_t: the counts and the four arrays that hold them. */
  class MeshSource {
    var numvertices: nat
    var numfaces: nat
    var vertex: array<Vec3>
    var normal: array<Vec3>
    var texcoord: array<Vec2>
    var face: array<Face>

    ghost predicate Valid()
      reads this
    {
      vertex.Length == numvertices && normal.Length == numvertices &&
      texcoord.Length == numvertices && face.Length == numfaces && vertex != normal
    }

    function Contents(): MeshData
      reads this, vertex, normal, texcoord, face
    {
      MeshData(vertex[..], normal[..], texcoord[..], face[..])
    }

    /** A mesh holding the given contents (what Load_SMD produces). */
    constructor (m: MeshData)
      requires Parallel(m)
      ensures Valid() && Contents() == m
    {
      numvertices := |m.vertex|;
      numfaces := |m.face|;
      vertex := new Vec3[|m.vertex|](k requires 0 <= k < |m.vertex| => m.vertex[k]);
      normal := new Vec3[|m.vertex|](k requires 0 <= k < |m.vertex| => m.normal[k]);
      texcoord := new Vec2[|m.vertex|](k requires 0 <= k < |m.vertex| => m.texcoord[k]);
      face := new Face[|m.face|](i requires 0 <= i < |m.face| => m.face[i]);
    }

    /** reallocMeshSource: fresh zeroed arrays with the old entries copied in. */
    method Realloc(addVerts: nat, addFaces: nat)
      requires Valid()
      modifies this
      ensures Valid()
      ensures numvertices == old(numvertices) + addVerts && numfaces == old(numfaces) + addFaces
      ensures Contents() == Grow(old(Contents()), addVerts, addFaces)
      ensures fresh(vertex) && fresh(normal) && fresh(texcoord) && fresh(face)
    {
      numvertices := numvertices + addVerts;
      numfaces := numfaces + addFaces;
      vertex := GrowArray(vertex, addVerts, Zero3);
      normal := GrowArray(normal, addVerts, Zero3);
      texcoord := GrowArray(texcoord, addVerts, Zero2);
      face := GrowArray(face, addFaces, ZeroFace);
    }

    /** The added-vertex slots once the corners in `refs` have been written. */
    ghost predicate Filled(d: MeshData, add: MeshData, p: Placement, angleMatrix: AngleMatrix, refs: seq<nat>)
      requires Parallel(add)
      reads this, vertex, normal, texcoord
    {
      vertex[..] == d.vertex + VertexSlots(add, p, angleMatrix, refs) &&
      normal[..] == d.normal + NormalSlots(add, p, angleMatrix, refs) &&
      texcoord[..] == d.texcoord + TexcoordSlots(add, refs)
    }

    /** The body of CombineMeshes' corner loop: added vertex k, placed, is
        written to slot oldNumVertices + k of each array. */
    method PlaceCorner(addition: MeshData, meshVertNum: nat, oldNumVertices: nat,
                       origin: Vec3, angles: Angles, scale: real, ghost angleMatrix: AngleMatrix, rotMatrix: Matrix34, additionRotMatrix: Matrix34,
                       ghost d: MeshData, ghost refs: seq<nat>)
      requires rotMatrix == angleMatrix(QuarterTurn) && additionRotMatrix == angleMatrix(angles)
      requires Valid() && Parallel(addition) && meshVertNum < |addition.vertex|
      requires numvertices == oldNumVertices + |addition.vertex| && |d.vertex| == oldNumVertices
      requires Filled(d, addition, Placement(origin, angles, scale), angleMatrix, refs)
      modifies vertex, normal, texcoord
      ensures Filled(d, addition, Placement(origin, angles, scale), angleMatrix, refs + [meshVertNum])
    {
      ghost var p := Placement(origin, angles, scale);
      SlotsExtend(addition, p, angleMatrix, refs, meshVertNum);
      var combinedVertNum := oldNumVertices + meshVertNum;

      texcoord[combinedVertNum] := addition.texcoord[meshVertNum];

      var yawRotatedVertex := VectorTransform(addition.vertex[meshVertNum], rotMatrix);
      var yawRotatedNormal := VectorTransform(addition.normal[meshVertNum], rotMatrix);
      yawRotatedVertex := Scale3(scale, yawRotatedVertex);
      var rotatedNormal := VectorTransform(yawRotatedNormal, additionRotMatrix);
      var rotatedVertex := VectorTransform(yawRotatedVertex, additionRotMatrix);
      rotatedVertex := Add3(rotatedVertex, origin);

      vertex[combinedVertNum] := rotatedVertex;
      normal[combinedVertNum] := rotatedNormal;
    }

    /** CombineMeshes' corner loop for added face fi: each corner's vertex is
        placed, and the face comes back with its corners shifted. */
    method PlaceFaceCorners(addition: MeshData, fi: nat, oldNumVertices: nat,
                            origin: Vec3, angles: Angles, scale: real, ghost angleMatrix: AngleMatrix, rotMatrix: Matrix34, additionRotMatrix: Matrix34, ghost d: MeshData)
        returns (addedFace: Face)
      requires rotMatrix == angleMatrix(QuarterTurn) && additionRotMatrix == angleMatrix(angles)
      requires Valid() && WellFormed(addition) && fi < |addition.face|
      requires numvertices == oldNumVertices + |addition.vertex| && |d.vertex| == oldNumVertices
      requires Filled(d, addition, Placement(origin, angles, scale), angleMatrix, Corners(addition.face[..fi]))
      modifies vertex, normal, texcoord
      ensures Filled(d, addition, Placement(origin, angles, scale), angleMatrix, Corners(addition.face[..fi + 1]))
      ensures addedFace == Shift(addition.face[fi], oldNumVertices)
    {
      ghost var p := Placement(origin, angles, scale);
      CornersUpToStart(addition.face, fi);
      addedFace := addition.face[fi];
      for vert := 0 to 3
        invariant Filled(d, addition, p, angleMatrix, CornersUpTo(addition.face, fi, vert))
        invariant addedFace == ShiftFirst(addition.face[fi], oldNumVertices, vert)
      {
        CornerStep(addition.face, fi, vert, oldNumVertices);
        var meshVertNum := Corner(addedFace, vert);
        var combinedVertNum := oldNumVertices + meshVertNum;
        PlaceCorner(addition, meshVertNum, oldNumVertices, origin, angles, scale, angleMatrix, rotMatrix, additionRotMatrix, d,
                    CornersUpTo(addition.face, fi, vert));
        addedFace := WithCorner(addedFace, vert, combinedVertNum);
      }
    }

    /** One pass of CombineMeshes' face loop: the corners of added face fi are
        placed and the shifted face is stored at oldNumFaces + fi. */
    method AppendFace(addition: MeshData, fi: nat, oldNumVertices: nat, oldNumFaces: nat,
                      origin: Vec3, angles: Angles, scale: real, ghost angleMatrix: AngleMatrix, rotMatrix: Matrix34, additionRotMatrix: Matrix34, ghost d: MeshData)
      requires rotMatrix == angleMatrix(QuarterTurn) && additionRotMatrix == angleMatrix(angles)
      requires Valid() && WellFormed(addition) && fi < |addition.face|
      requires |d.vertex| == oldNumVertices && |d.face| == oldNumFaces && Parallel(d)
      requires Contents() == Partial(d, addition, Placement(origin, angles, scale), angleMatrix, fi)
      modifies vertex, normal, texcoord, face
      ensures Contents() == Partial(d, addition, Placement(origin, angles, scale), angleMatrix, fi + 1)
    {
      ghost var p := Placement(origin, angles, scale);
      var combinedFaceNum := oldNumFaces + fi;
      assert face[..] == PartialFaces(d, addition.face, fi);
      assert numvertices == |vertex[..]| == oldNumVertices + |addition.vertex|;
      assert numfaces == |face[..]| == oldNumFaces + |addition.face|;
      assert Filled(d, addition, p, angleMatrix, Corners(addition.face[..fi]));
      var addedFace := PlaceFaceCorners(addition, fi, oldNumVertices, origin, angles, scale, angleMatrix, rotMatrix,
                                        additionRotMatrix, d);
      assert Filled(d, addition, p, angleMatrix, Corners(addition.face[..fi + 1]));
      face[combinedFaceNum] := addedFace;
      PartialFaceStep(d, addition.face, fi);
      assert face[..] == PartialFaces(d, addition.face, fi + 1);
    }

    /** CombineMeshes: append `addition`, placed, to this mesh. */
    method CombineMeshes(addition: MeshData, origin: Vec3, angles: Angles, scale: real, angleMatrix: AngleMatrix)
      requires Valid() && WellFormed(addition)
      modifies this
      ensures Valid()
      ensures Contents() == Combine(old(Contents()), addition, Placement(origin, angles, scale), angleMatrix)
    {
      if |addition.vertex| == 0 {
        return; // nothing to add
      }
      var rotMatrix := angleMatrix(QuarterTurn);
      var additionRotMatrix := angleMatrix(angles);
      ghost var d := Contents();
      ghost var p := Placement(origin, angles, scale);
      var oldNumVertices := numvertices;
      var oldNumFaces := numfaces;

      Realloc(|addition.vertex|, |addition.face|);
      PartialStart(d, addition, p, angleMatrix);

      for fi := 0 to |addition.face|
        invariant Valid() && fresh(vertex) && fresh(normal) && fresh(texcoord) && fresh(face)
        invariant Contents() == Partial(d, addition, p, angleMatrix, fi)
      {
        AppendFace(addition, fi, oldNumVertices, oldNumFaces, origin, angles, scale, angleMatrix, rotMatrix,
                   additionRotMatrix, d);
      }
      PartialDone(d, addition, p, angleMatrix);
    }
  }

  /** One entry of reallocMeshSource's table: calloc a larger buffer and copy
      the old entries over. */
  method GrowArray<T>(a: array<T>, extra: nat, zero: T) returns (b: array<T>)
    ensures fresh(b) && b[..] == a[..] + seq(extra, _ => zero)
  {
    b := new T[a.Length + extra](_ => zero);
    forall k | 0 <= k < a.Length {
      b[k] := a[k];
    }
  }

  /** The destination after CombineMeshes' face loop has handled the first fi
      added faces. */
  function Partial(d: MeshData, add: MeshData, p: Placement, angleMatrix: AngleMatrix, fi: nat): MeshData
    requires Parallel(add) && fi <= |add.face|
  {
    var refs := Corners(add.face[..fi]);
    MeshData(d.vertex + VertexSlots(add, p, angleMatrix, refs), d.normal + NormalSlots(add, p, angleMatrix, refs),
             d.texcoord + TexcoordSlots(add, refs),
             PartialFaces(d, add.face, fi))
  }

  /** The destination's faces after the first fi added faces are stored. */
  function PartialFaces(d: MeshData, faces: seq<Face>, fi: nat): seq<Face>
    requires fi <= |faces|
  {
    d.face + ShiftedFaces(faces[..fi], |d.vertex|) + seq(|faces| - fi, _ => ZeroFace)
  }

  lemma PartialStart(d: MeshData, add: MeshData, p: Placement, angleMatrix: AngleMatrix)
    requires Parallel(add)
    ensures Partial(d, add, p, angleMatrix, 0) == Grow(d, |add.vertex|, |add.face|)
  {
    assert add.face[..0] == [];
    SlotsNone(add, p, angleMatrix);
  }

  lemma PartialDone(d: MeshData, add: MeshData, p: Placement, angleMatrix: AngleMatrix)
    requires WellFormed(add) && |add.vertex| > 0
    ensures Partial(d, add, p, angleMatrix, |add.face|) == Combine(d, add, p, angleMatrix)
  {
    assert add.face[..|add.face|] == add.face;
    assert seq(0, _ => ZeroFace) == [];
  }

  /** Storing the shifted face fi advances the face array by one face. */
  lemma PartialFaceStep(d: MeshData, faces: seq<Face>, fi: nat)
    requires fi < |faces|
    ensures PartialFaces(d, faces, fi + 1) == PartialFaces(d, faces, fi)[|d.face| + fi := Shift(faces[fi], |d.vertex|)]
  {
    var sh := ShiftedFaces(faces[..fi], |d.vertex|);
    var sh1 := ShiftedFaces(faces[..fi + 1], |d.vertex|);
    assert sh1 == sh + [Shift(faces[fi], |d.vertex|)];
    var zs1 := seq(|faces| - (fi + 1), _ => ZeroFace);
    assert seq(|faces| - fi, _ => ZeroFace) == [ZeroFace] + zs1;
    UpdateJoin(d.face, sh, ZeroFace, zs1, Shift(faces[fi], |d.vertex|));
  }

  /** Overwriting the first entry after a + b with x moves x to the end of b. */
  lemma UpdateJoin<T>(a: seq<T>, b: seq<T>, z: T, c: seq<T>, x: T)
    ensures (a + b + ([z] + c))[|a| + |b| := x] == a + (b + [x]) + c
  {
  }

  // ---------------------------------------------------------------------------
  // Properties of the append

  /** k is a corner of faces exactly when some face names it at some corner. */
  lemma {:induction false} InCorners(faces: seq<Face>, k: nat)
    ensures k in Corners(faces) <==> exists i, j :: 0 <= i < |faces| && 0 <= j < 3 && Corner(faces[i], j) == k
    decreases |faces|
  {
    if faces != [] {
      var init := faces[..|faces| - 1];
      var last := faces[|faces| - 1];
      InCorners(init, k);
      if k in Corners(faces) {
        if k in Corners(init) {
          var i, j :| 0 <= i < |init| && 0 <= j < 3 && Corner(init[i], j) == k;
          assert faces[i] == init[i];
        } else {
          assert k in CornerSeq(last);
          var j :| 0 <= j < 3 && CornerSeq(last)[j] == k;
          assert Corner(faces[|faces| - 1], j) == k;
        }
      } else {
        forall i, j | 0 <= i < |faces| && 0 <= j < 3
          ensures Corner(faces[i], j) != k
        {
          if i < |init| {
            assert faces[i] == init[i];
          } else {
            assert Corner(last, j) == CornerSeq(last)[j];
          }
        }
      }
    }
  }

  /** Some added face names added vertex k. */
  predicate Referenced(add: MeshData, k: nat)
  {
    exists i, j :: 0 <= i < |add.face| && 0 <= j < 3 && Corner(add.face[i], j) == k
  }

  /**
   * Added face i lands at the old face count plus i with every corner moved
   * up by the old vertex count and the same material.
   */
  lemma CombinedFace(d: MeshData, add: MeshData, p: Placement, angleMatrix: AngleMatrix, i: nat)
    requires WellFormed(add) && |add.vertex| > 0 && i < |add.face|
    ensures var f := Combine(d, add, p, angleMatrix).face[|d.face| + i];
      f.material == add.face[i].material &&
      forall j :: 0 <= j < 3 ==> Corner(f, j) == Corner(add.face[i], j) + |d.vertex|
  {
  }

  /**
   * The slot of added vertex k holds the placed position, the placed normal and
   * the texture coordinate copied unchanged when a face uses the vertex, and
   * calloc's zeroes when none does.
   */
  lemma CombinedSlot(d: MeshData, add: MeshData, p: Placement, angleMatrix: AngleMatrix, k: nat)
    requires WellFormed(add) && k < |add.vertex|
    ensures var r := Combine(d, add, p, angleMatrix);
      if Referenced(add, k) then
        r.vertex[|d.vertex| + k] == PlaceVertex(p, angleMatrix, add.vertex[k]) &&
        r.normal[|d.normal| + k] == PlaceNormal(p, angleMatrix, add.normal[k]) &&
        r.texcoord[|d.texcoord| + k] == add.texcoord[k]
      else
        r.vertex[|d.vertex| + k] == Zero3 && r.normal[|d.normal| + k] == Zero3 &&
        r.texcoord[|d.texcoord| + k] == Zero2
  {
    InCorners(add.face, k);
    SlotAt(add, p, angleMatrix, Corners(add.face), k);
  }

  /** Appending a well-formed mesh to a well-formed mesh gives a well-formed mesh. */
  lemma CombinePreservesWellFormed(d: MeshData, add: MeshData, p: Placement, angleMatrix: AngleMatrix)
    requires WellFormed(d) && WellFormed(add)
    ensures WellFormed(Combine(d, add, p, angleMatrix))
  {
    var r := Combine(d, add, p, angleMatrix);
    if |add.vertex| > 0 {
      forall i, k | 0 <= i < |r.face| && 0 <= k < 3
        ensures Corner(r.face[i], k) < |r.vertex|
      {
        if i < |d.face| {
          assert r.face[i] == d.face[i];
        } else {
          assert r.face[i] == Shift(add.face[i - |d.face|], |d.vertex|);
        }
      }
    }
  }

  /** Appending two meshes in turn adds both their vertex and face counts. */
  lemma CombineTwiceCounts(d: MeshData, a: MeshData, b: MeshData, pa: Placement, pb: Placement, angleMatrix: AngleMatrix)
    requires WellFormed(a) && WellFormed(b) && |a.vertex| > 0 && |b.vertex| > 0
    ensures var r := Combine(Combine(d, a, pa, angleMatrix), b, pb, angleMatrix);
      |r.vertex| == |d.vertex| + |a.vertex| + |b.vertex| && |r.face| == |d.face| + |a.face| + |b.face| &&
      r.face[..|d.face|] == d.face
  {
    var m := Combine(d, a, pa, angleMatrix);
    var r := Combine(m, b, pb, angleMatrix);
    assert r.face[..|d.face|] == r.face[..|m.face|][..|d.face|];
  }
}
