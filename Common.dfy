/**
 * Shared vocabulary of the static-prop pass: optional values, bytes and
 * 32-bit words, vectors and angles over the reals, C-string helpers and the
 * little-endian byte images that the CRC-32 calls are fed.
 */
module Common {

  datatype Option<+T> = None | Some(value: T)

  /** One byte of memory. */
  type byte = x: int | 0 <= x < 256

  /** An unsigned 32-bit word (a CRC32_t, or the bit pattern of an int). */
  type u32 = x: int | 0 <= x < 0x1_0000_0000

  /** An unsigned 16-bit word (the leaf numbers of the leaf lump). */
  type u16 = x: int | 0 <= x < 0x1_0000

  const TWO32: int := 0x1_0000_0000

  /** A Vector; the source's floats are modelled as reals. */
  datatype Vec3 = Vec3(x: real, y: real, z: real)

  /** A Vector2D (texture coordinates). */
  datatype Vec2 = Vec2(u: real, v: real)

  /** A QAngle: pitch, yaw, roll (YAW is component 1). */
  datatype Angles = Angles(pitch: real, yaw: real, roll: real)

  const Zero3: Vec3 := Vec3(0.0, 0.0, 0.0)
  const Zero2: Vec2 := Vec2(0.0, 0.0)

  function Add3(a: Vec3, b: Vec3): Vec3 { Vec3(a.x + b.x, a.y + b.y, a.z + b.z) }
  function Sub3(a: Vec3, b: Vec3): Vec3 { Vec3(a.x - b.x, a.y - b.y, a.z - b.z) }
  function Scale3(s: real, a: Vec3): Vec3 { Vec3(s * a.x, s * a.y, s * a.z) }

  /** One row of a matrix3x4_t: three rotation entries and a translation. */
  datatype Row = Row(a: real, b: real, c: real, t: real)

  /** A matrix3x4_t. */
  datatype Matrix34 = Matrix34(r0: Row, r1: Row, r2: Row)

  /** AngleMatrix: the rotation matrix of a QAngle, with a zero translation
      column. It is float trigonometry, so it is supplied by the caller. */
  type AngleMatrix = Angles -> Matrix34

  function RowDot(v: Vec3, r: Row): real { v.x * r.a + v.y * r.b + v.z * r.c }

  /** VectorRotate: the rotation part of the matrix applied to v. */
  function VectorRotate(v: Vec3, m: Matrix34): Vec3
  {
    Vec3(RowDot(v, m.r0), RowDot(v, m.r1), RowDot(v, m.r2))
  }

  /** VectorTransform: rotation, then the translation column. */
  function VectorTransform(v: Vec3, m: Matrix34): Vec3
  {
    Vec3(RowDot(v, m.r0) + m.r0.t, RowDot(v, m.r1) + m.r1.t, RowDot(v, m.r2) + m.r2.t)
  }

  /** CRC-32 of a byte string; CRC32_Init/ProcessBuffer/Final is incremental,
      so the checksum of several buffers is the checksum of their concatenation. */
  type Crc = seq<byte> -> u32

  /** RoundInt: nearest integer, halves rounded up. */
  function RoundInt(x: real): (r: int)
    ensures r as real - 0.5 <= x < r as real + 0.5
  {
    (x + 0.5).Floor
  }

  lemma RoundIntOfInt(n: int)
    ensures RoundInt(n as real) == n
  {
  }

  /** The byte a C char occupies. */
  function CharByte(c: char): byte { (c as int) % 256 }

  /** The bytes of a string as strlen/ProcessBuffer see them (no terminator). */
  function StrBytes(s: string): (r: seq<byte>)
    ensures |r| == |s|
    ensures forall i :: 0 <= i < |s| ==> r[i] == CharByte(s[i])
  {
    seq(|s|, i requires 0 <= i < |s| => CharByte(s[i]))
  }

  /** Feeding two strings one after the other feeds the bytes of their
      concatenation. */
  lemma StrBytesAppend(a: string, b: string)
    ensures StrBytes(a + b) == StrBytes(a) + StrBytes(b)
  {
    assert forall i :: 0 <= i < |a| + |b| ==> (a + b)[i] == if i < |a| then a[i] else b[i - |a|];
  }

  /** The four little-endian bytes of a 32-bit int (negative values as their
      two's complement). */
  function IntBytes(x: int): (r: seq<byte>)
    ensures |r| == 4
  {
    var w := x % TWO32;
    var q1 := w / 256;
    var q2 := q1 / 256;
    [w % 256, q1 % 256, q2 % 256, (q2 / 256) % 256]
  }

  /** The value four little-endian bytes stand for. */
  function WordOfBytes(b: seq<byte>): int
    requires |b| == 4
  {
    b[0] as int + 256 * (b[1] as int + 256 * (b[2] as int + 256 * (b[3] as int)))
  }

  lemma IntBytesRoundTrip(x: int)
    ensures WordOfBytes(IntBytes(x)) == x % TWO32
  {
    var w := x % TWO32;
    var q1 := w / 256;
    var q2 := q1 / 256;
    var q3 := q2 / 256;
    assert q1 < 0x100_0000;
    assert q2 < 0x1_0000;
    assert q3 < 256;
    assert w == w % 256 + 256 * q1;
    assert q1 == q1 % 256 + 256 * q2;
    assert q2 == q2 % 256 + 256 * q3;
  }

  /** The IEEE-754 single-precision image of 1.0f, little-endian (0x3F800000). */
  const OneFloatBytes: seq<byte> := [0x00, 0x00, 0x80, 0x3F]

  /** ASCII lower-casing, as _strlwr and V_stricmp apply it. */
  function ToLowerChar(c: char): char
  {
    if 'A' <= c <= 'Z' then (c as int + 32) as char else c
  }

  function ToLower(s: string): (r: string)
    ensures |r| == |s|
    ensures forall i :: 0 <= i < |s| ==> r[i] == ToLowerChar(s[i])
    ensures forall i :: 0 <= i < |r| ==> !('A' <= r[i] <= 'Z')
  {
    seq(|s|, i requires 0 <= i < |s| => ToLowerChar(s[i]))
  }

  /** Lower-casing twice is lower-casing once. */
  lemma ToLowerIdempotent(s: string)
    ensures ToLower(ToLower(s)) == ToLower(s)
  {
  }

  /** V_stricmp(a, b) == 0. */
  predicate EqualsIgnoreCase(a: string, b: string)
  {
    ToLower(a) == ToLower(b)
  }

  /** Replace every occurrence of one character by another. */
  function ReplaceChar(s: string, from: char, to: char): (r: string)
    ensures |r| == |s|
    ensures forall i :: 0 <= i < |s| ==> r[i] == (if s[i] == from then to else s[i])
    ensures from != to ==> from !in r
    ensures to in r <==> to in s || from in s
  {
    seq(|s|, i requires 0 <= i < |s| => if s[i] == from then to else s[i])
  }

  /** V_FixSlashes(s, '/'): both kinds of separator become '/'. */
  function FixSlashes(s: string): (r: string)
    ensures |r| == |s|
    ensures '\\' !in r
    ensures forall i :: 0 <= i < |s| ==> r[i] == (if s[i] == '\\' then '/' else s[i])
  {
    ReplaceChar(s, '\\', '/')
  }

  predicate IsPrefix(p: string, s: string) { |p| <= |s| && s[..|p|] == p }

  /** Concatenation of a sequence of byte strings. */
  function Flatten(parts: seq<seq<byte>>): seq<byte>
  {
    if parts == [] then [] else Flatten(parts[..|parts| - 1]) + parts[|parts| - 1]
  }

  lemma {:induction false} FlattenAppend(parts: seq<seq<byte>>, last: seq<byte>)
    ensures Flatten(parts + [last]) == Flatten(parts) + last
  {
    assert (parts + [last])[..|parts|] == parts;
  }

  lemma {:induction false} FlattenConcat(a: seq<seq<byte>>, b: seq<seq<byte>>)
    ensures Flatten(a + b) == Flatten(a) + Flatten(b)
    decreases |b|
  {
    if b == [] {
      assert a + b == a;
    } else {
      var init := b[..|b| - 1];
      assert a + b == (a + init) + [b[|b| - 1]];
      FlattenConcat(a, init);
      FlattenAppend(a + init, b[|b| - 1]);
      FlattenAppend(init, b[|b| - 1]);
      assert b == init + [b[|b| - 1]];
    }
  }

  /** Every part has the same length k. */
  predicate Uniform(parts: seq<seq<byte>>, k: nat)
  {
    forall i :: 0 <= i < |parts| ==> |parts[i]| == k
  }

  lemma {:induction false} FlattenUniform(parts: seq<seq<byte>>, k: nat)
    requires Uniform(parts, k)
    ensures |Flatten(parts)| == k * |parts|
    decreases |parts|
  {
    if parts != [] {
      FlattenUniform(parts[..|parts| - 1], k);
    }
  }
}
