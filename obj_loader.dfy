/**
 * The Wavefront OBJ loader behind Mesh(objFile): positions (v), texture
 * coordinates (vt), normals (vn) and faces (f) of three or four vertex
 * groups, converted to a left-handed space and de-duplicated into a vertex
 * list and an index list.
 *
 * Character-level reading is not modelled: each line arrives with the
 * numbers its sscanf patterns read, and the model starts from those.
 */
module ObjLoader {
  import opened DxMath

  datatype Vertex = Vertex(position: Float3, uv: Float2, normal: Float3)

  /** One line of the file, as the scanner sees it. */
  datatype ObjLine = ObjLine(
    text: string,          // the characters read; only the first two decide the kind
    floats: seq<real>,     // what "v %f %f %f", "vt %f %f" or "vn %f %f %f" read
    withUvs: seq<int>,     // what "f %d/%d/%d %d/%d/%d %d/%d/%d %d/%d/%d" read
    withoutUvs: seq<int>)  // what "f %d//%d %d//%d %d//%d %d//%d" read

  datatype LineKind = NormalLine | UvLine | PositionLine | FaceLine | OtherLine

  /** The line buffer is NUL-terminated: past the end every character reads as '\0'. */
  function CharAt(s: string, i: nat): char
  {
    if i < |s| then s[i] else '\0'
  }

  /** The kind of a line, tested in the order vn, vt, v, f. */
  function Kind(line: ObjLine): (r: LineKind)
    ensures r == PositionLine <==>
              CharAt(line.text, 0) == 'v' && CharAt(line.text, 1) != 'n' && CharAt(line.text, 1) != 't'
    ensures r == OtherLine <==> CharAt(line.text, 0) != 'v' && CharAt(line.text, 0) != 'f'
    ensures r == NormalLine <==> CharAt(line.text, 0) == 'v' && CharAt(line.text, 1) == 'n'
    ensures r == UvLine <==> CharAt(line.text, 0) == 'v' && CharAt(line.text, 1) == 't'
    ensures r == FaceLine <==> CharAt(line.text, 0) == 'f'
  {
    var c0, c1 := CharAt(line.text, 0), CharAt(line.text, 1);
    if c0 == 'v' && c1 == 'n' then NormalLine
    else if c0 == 'v' && c1 == 't' then UvLine
    else if c0 == 'v' then PositionLine
    else if c0 == 'f' then FaceLine
    else OtherLine
  }

  /** A zero-initialised XMFLOAT3 after sscanf filled in the numbers it read. */
  function ReadFloat3(fs: seq<real>): (r: Float3)
    ensures |fs| >= 3 ==> r == Float3(fs[0], fs[1], fs[2])
    ensures |fs| == 0 ==> r == Float3(0.0, 0.0, 0.0)
    ensures |fs| < 2 ==> r.y == 0.0
    ensures |fs| < 3 ==> r.z == 0.0
    ensures |fs| > 0 ==> r.x == fs[0]
    ensures |fs| > 1 ==> r.y == fs[1]
  {
    Float3(if |fs| > 0 then fs[0] else 0.0, if |fs| > 1 then fs[1] else 0.0, if |fs| > 2 then fs[2] else 0.0)
  }

  /** A zero-initialised XMFLOAT2 after sscanf filled in the numbers it read. */
  function ReadFloat2(fs: seq<real>): (r: Float2)
    ensures |fs| >= 2 ==> r == Float2(fs[0], fs[1])
    ensures |fs| == 0 ==> r == Float2(0.0, 0.0)
    ensures |fs| < 2 ==> r.y == 0.0
    ensures |fs| > 0 ==> r.x == fs[0]
  {
    Float2(if |fs| > 0 then fs[0] else 0.0, if |fs| > 1 then fs[1] else 0.0)
  }

  // ---------------------------------------------------------------------
  // Faces

  /** A face line as the tokeniser can deliver it. */
  predicate FaceScanned(line: ObjLine)
  {
    |line.withUvs| <= 12 && |line.withoutUvs| <= 8
  }

  /** The zero-initialised index array i[12] after the first pattern. */
  function FirstScan(line: ObjLine): (i: seq<int>)
    requires FaceScanned(line)
    ensures |i| == 12
    ensures i[..|line.withUvs|] == line.withUvs
    ensures forall k :: |line.withUvs| <= k < 12 ==> i[k] == 0
  {
    line.withUvs + seq(12 - |line.withUvs|, _ => 0)
  }

  /** The k-th number the p//n pattern read, or the slot's old value when it read fewer. */
  function PairOr(pairs: seq<int>, k: nat, keep: int): int
  {
    if k < |pairs| then pairs[k] else keep
  }

  /** The index array after the p//n pattern overwrote slots 0, 2, 3, 5, 6, 8, 9 and 11. */
  function Rescan(i: seq<int>, pairs: seq<int>): (r: seq<int>)
    requires |i| == 12
    ensures |r| == 12
    ensures r[1] == i[1] && r[4] == i[4] && r[7] == i[7] && r[10] == i[10]
    ensures forall c :: 0 <= c < 4 ==>
              r[3 * c] == PairOr(pairs, 2 * c, i[3 * c]) && r[3 * c + 2] == PairOr(pairs, 2 * c + 1, i[3 * c + 2])
  {
    i[0 := PairOr(pairs, 0, i[0])][2 := PairOr(pairs, 1, i[2])]
     [3 := PairOr(pairs, 2, i[3])][5 := PairOr(pairs, 3, i[5])]
     [6 := PairOr(pairs, 4, i[6])][8 := PairOr(pairs, 5, i[8])]
     [9 := PairOr(pairs, 6, i[9])][11 := PairOr(pairs, 7, i[11])]
  }

  /** A face whose first pattern read exactly one number is re-read without UVs. */
  predicate UsesFallback(line: ObjLine)
  {
    |line.withUvs| == 1
  }

  /** The count the quad test looks at: that of the second pattern when it ran. */
  function NumbersRead(line: ObjLine): nat
  {
    if UsesFallback(line) then |line.withoutUvs| else |line.withUvs|
  }

  /** 12 numbers (with UVs) or 8 (without) mean a fourth vertex group. */
  predicate HasFourth(line: ObjLine)
  {
    NumbersRead(line) == 12 || NumbersRead(line) == 8
  }

  /** The index array the vertices are looked up with: slots 3c, 3c+1, 3c+2 for corner c. */
  function FaceIndices(line: ObjLine): (i: seq<int>)
    requires FaceScanned(line)
    ensures |i| == 12
    ensures UsesFallback(line) ==> i[1] == i[4] == i[7] == i[10] == 1
    ensures !UsesFallback(line) ==> i == FirstScan(line)
    ensures UsesFallback(line) ==> i == Rescan(FirstScan(line), line.withoutUvs)[1 := 1][4 := 1][7 := 1][10 := 1]
  {
    if UsesFallback(line) then Rescan(FirstScan(line), line.withoutUvs)[1 := 1][4 := 1][7 := 1][10 := 1]
    else FirstScan(line)
  }

  /** The UV list a face reads from: a UV-less face supplies a lone (0,0) when there is none. */
  function FaceUvs(uvs: seq<Float2>, line: ObjLine): (r: seq<Float2>)
    ensures uvs <= r && |r| <= |uvs| + 1
    ensures UsesFallback(line) ==> |r| > 0
    ensures !UsesFallback(line) ==> r == uvs
    ensures |uvs| > 0 ==> r == uvs
    ensures UsesFallback(line) && uvs == [] ==> r == [Float2(0.0, 0.0)]
  {
    if UsesFallback(line) && |uvs| == 0 then [Float2(0.0, 0.0)] else uvs
  }

  /** Right-handed to left-handed: negate position z and normal z, flip v to 1 - v. */
  function ToLeftHanded(v: Vertex): Vertex
  {
    Vertex(MirrorZ(v.position), Float2(v.uv.x, 1.0 - v.uv.y), MirrorZ(v.normal))
  }

  /** Reflection through the xy plane. */
  function MirrorZ(v: Float3): Float3
  {
    Float3(v.x, v.y, -v.z)
  }

  /** The larger of two integers (the Windows max macro). */
  function Max(a: int, b: int): int
  {
    if a > b then a else b
  }

  /**
   * Where a 1-based OBJ index is looked up: max(n - 1, 0), so that a missing
   * index (left 0) or a non-positive one falls back to the first entry.
   */
  function LookupIndex(n: int): (r: nat)
    ensures 1 <= n ==> r == n - 1
    ensures n <= 1 ==> r == 0
  {
    Max(n - 1, 0)
  }

  /**
   * The same lookup as Mesh.cpp writes it: the index array holds unsigned
   * 32-bit values, so n - 1 wraps around and max(_, 0) never changes it.
   */
  function AsWrittenLookupIndex(n: int): (r: nat)
    ensures r < 0x1_0000_0000
    ensures (r + 1) % 0x1_0000_0000 == n % 0x1_0000_0000
  {
    var i := n % 0x1_0000_0000;
    var d := (i - 1) % 0x1_0000_0000;
    Max(d, 0)
  }

  /** For every index the file can meaningfully contain, the two lookups agree. */
  lemma LookupsAgreeOnPositiveIndices(n: int)
    requires 1 <= n <= 0x1_0000_0000
    ensures AsWrittenLookupIndex(n) == LookupIndex(n) == n - 1
  {
  }

  /**
   * An index left at 0 (a face such as "f 1/1 2/2 3/3", whose normal slots the
   * pattern never fills) reads entry 4294967295 as written: past the end of
   * any list shorter than that, where the intended lookup reads entry 0.
   */
  lemma AsWrittenZeroIndexOverruns(list: seq<Float3>)
    requires 0 < |list| < 0xFFFF_FFFF
    ensures AsWrittenLookupIndex(0) == 0xFFFF_FFFF >= |list|
    ensures LookupIndex(0) == 0 < |list|
  {
  }

  /**
   * "f 1/1 2/2 3/3" (UVs but no normals): the first pattern stops after two
   * numbers, so no fallback runs and the first normal index stays 0.
   */
  lemma PartialFaceLeavesIndexZero()
    ensures var line := ObjLine("f 1/1 2/2 3/3", [], [1, 1], []);
            && Kind(line) == FaceLine && !UsesFallback(line)
            && FaceIndices(line)[2] == 0
            && AsWrittenLookupIndex(FaceIndices(line)[2]) == 0xFFFF_FFFF
            && LookupIndex(FaceIndices(line)[2]) == 0
  {
    var line := ObjLine("f 1/1 2/2 3/3", [], [1, 1], []);
    assert FaceIndices(line)[2] == FirstScan(line)[2] == 0;
  }

  /** Corner c's indices all name existing entries. */
  predicate CornerFits(positions: seq<Float3>, uvs: seq<Float2>, normals: seq<Float3>, i: seq<int>, c: nat)
    requires |i| == 12 && c < 4
  {
    && LookupIndex(i[3 * c]) < |positions|
    && LookupIndex(i[3 * c + 1]) < |uvs|
    && LookupIndex(i[3 * c + 2]) < |normals|
  }

  /** Every corner the face uses names existing entries (otherwise the source reads out of range). */
  predicate FaceFits(positions: seq<Float3>, uvs: seq<Float2>, normals: seq<Float3>, line: ObjLine)
  {
    && FaceScanned(line)
    && var i := FaceIndices(line);
       var faceUvs := FaceUvs(uvs, line);
       && CornerFits(positions, faceUvs, normals, i, 0)
       && CornerFits(positions, faceUvs, normals, i, 1)
       && CornerFits(positions, faceUvs, normals, i, 2)
       && (HasFourth(line) ==> CornerFits(positions, faceUvs, normals, i, 3))
  }

  /** Corner c of a face as the file states it, before conversion. */
  function RawCorner(positions: seq<Float3>, uvs: seq<Float2>, normals: seq<Float3>, i: seq<int>, c: nat): Vertex
    requires |i| == 12 && c < 4 && CornerFits(positions, uvs, normals, i, c)
  {
    Vertex(positions[LookupIndex(i[3 * c])], uvs[LookupIndex(i[3 * c + 1])], normals[LookupIndex(i[3 * c + 2])])
  }

  /** Corner c of a face, converted to left-handed space. */
  function Corner(positions: seq<Float3>, uvs: seq<Float2>, normals: seq<Float3>, i: seq<int>, c: nat): (v: Vertex)
    requires |i| == 12 && c < 4 && CornerFits(positions, uvs, normals, i, c)
    ensures MirrorZ(v.position) == positions[LookupIndex(i[3 * c])]
    ensures MirrorZ(v.normal) == normals[LookupIndex(i[3 * c + 2])]
    ensures v.uv.x == uvs[LookupIndex(i[3 * c + 1])].x && v.uv.y + uvs[LookupIndex(i[3 * c + 1])].y == 1.0
  {
    ToLeftHanded(RawCorner(positions, uvs, normals, i, c))
  }

  /** The vertices a face emits: (1,3,2) and, for a quad, (1,4,3): the winding is reversed. */
  function FaceVertices(positions: seq<Float3>, uvs: seq<Float2>, normals: seq<Float3>, line: ObjLine)
    : (r: seq<Vertex>)
    requires FaceFits(positions, uvs, normals, line)
    ensures |r| == if HasFourth(line) then 6 else 3
    ensures HasFourth(line) ==> r[3] == r[0] && r[5] == r[1]
  {
    var i := FaceIndices(line);
    var faceUvs := FaceUvs(uvs, line);
    var v1 := Corner(positions, faceUvs, normals, i, 0);
    var v2 := Corner(positions, faceUvs, normals, i, 1);
    var v3 := Corner(positions, faceUvs, normals, i, 2);
    if HasFourth(line) then
      [v1, v3, v2] + [v1, Corner(positions, faceUvs, normals, i, 3), v3]
    else [v1, v3, v2]
  }

  // ---------------------------------------------------------------------
  // Reading the whole file

  /** The four lists the reading loop fills. */
  datatype ObjState = ObjState(
    positions: seq<Float3>, normals: seq<Float3>, uvs: seq<Float2>, vertsFromFile: seq<Vertex>)

  const EmptyState := ObjState([], [], [], [])

  /** What a line may demand of the lists read before it. */
  predicate LineFits(st: ObjState, line: ObjLine)
  {
    Kind(line) == FaceLine ==> FaceFits(st.positions, st.uvs, st.normals, line)
  }

  /** The effect of one line on the four lists. */
  function Step(st: ObjState, line: ObjLine): (r: ObjState)
    requires LineFits(st, line)
    ensures st.positions <= r.positions && st.normals <= r.normals && st.uvs <= r.uvs
    ensures st.vertsFromFile <= r.vertsFromFile
    ensures |r.vertsFromFile| - |st.vertsFromFile| == 0 || |r.vertsFromFile| - |st.vertsFromFile| == 3
         || |r.vertsFromFile| - |st.vertsFromFile| == 6
  {
    match Kind(line)
    case NormalLine => st.(normals := st.normals + [ReadFloat3(line.floats)])
    case UvLine => st.(uvs := st.uvs + [ReadFloat2(line.floats)])
    case PositionLine => st.(positions := st.positions + [ReadFloat3(line.floats)])
    case FaceLine =>
      st.(uvs := FaceUvs(st.uvs, line),
          vertsFromFile := st.vertsFromFile + FaceVertices(st.positions, st.uvs, st.normals, line))
    case OtherLine => st
  }

  /** Every face of the file only names entries read before it. */
  predicate Loadable(lines: seq<ObjLine>)
    decreases |lines|, 1
  {
    lines == [] ||
    (Loadable(lines[..|lines| - 1]) && LineFits(Parse(lines[..|lines| - 1]), lines[|lines| - 1]))
  }

  /** A multiple of three plus no, one or two more triangles' worth of vertices is a multiple of three. */
  lemma WholeTrianglesAdded(n: int, d: int)
    requires n % 3 == 0 && (d == 0 || d == 3 || d == 6)
    ensures (n + d) % 3 == 0
  {
  }

  /** The four lists after reading the lines in order. */
  function Parse(lines: seq<ObjLine>): (r: ObjState)
    requires Loadable(lines)
    ensures |r.vertsFromFile| % 3 == 0
    decreases |lines|, 2
  {
    if lines == [] then EmptyState
    else
      var before := Parse(lines[..|lines| - 1]);
      var after := Step(before, lines[|lines| - 1]);
      assert |after.vertsFromFile| % 3 == 0 by {
        WholeTrianglesAdded(|before.vertsFromFile|, |after.vertsFromFile| - |before.vertsFromFile|);
      }
      after
  }

  /** Reading one more line: loadable when it fits, and one more Step. */
  lemma ParseSnoc(lines: seq<ObjLine>, line: ObjLine)
    requires Loadable(lines) && LineFits(Parse(lines), line)
    ensures Loadable(lines + [line])
    ensures Parse(lines + [line]) == Step(Parse(lines), line)
  {
    assert (lines + [line])[..|lines|] == lines;
  }

  lemma {:induction false} LoadablePrefix(lines: seq<ObjLine>, k: nat)
    requires Loadable(lines) && k <= |lines|
    ensures Loadable(lines[..k])
    decreases |lines| - k
  {
    if k < |lines| {
      LoadablePrefix(lines[..|lines| - 1], k);
      assert lines[..|lines| - 1][..k] == lines[..k];
    } else {
      assert lines[..k] == lines;
    }
  }

  /**
   * The two scans of an f line: p/t/n first; when that read a single number,
   * p//n again with every UV index set to 1 and a (0,0) UV supplied if
   * there is none.
   */
  method ScanFace(uvs: seq<Float2>, chars: ObjLine) returns (i: seq<int>, numbersRead: int, newUvs: seq<Float2>)
    requires FaceScanned(chars)
    ensures i == FaceIndices(chars)
    ensures numbersRead == NumbersRead(chars)
    ensures newUvs == FaceUvs(uvs, chars)
  {
    newUvs := uvs;
    i := FirstScan(chars);
    numbersRead := |chars.withUvs|;
    if numbersRead == 1 {
      // No UVs in this face: re-read as p//n and point every UV index at entry 1.
      i := Rescan(i, chars.withoutUvs);
      numbersRead := |chars.withoutUvs|;
      i := i[1 := 1][4 := 1][7 := 1][10 := 1];
      if |newUvs| == 0 {
        newUvs := newUvs + [Float2(0.0, 0.0)];
      }
    }
  }

  /**
   * One corner of a face: look up its position, UV and normal (1-based
   * indices), then flip v, position z and normal z.
   */
  method MakeCorner(positions: seq<Float3>, uvs: seq<Float2>, normals: seq<Float3>, i: seq<int>, c: nat)
    returns (v: Vertex)
    requires |i| == 12 && c < 4 && CornerFits(positions, uvs, normals, i, c)
    ensures v == Corner(positions, uvs, normals, i, c)
  {
    v := Vertex(positions[LookupIndex(i[3 * c])], uvs[LookupIndex(i[3 * c + 1])], normals[LookupIndex(i[3 * c + 2])]);
    v := v.(uv := v.uv.(y := 1.0 - v.uv.y));
    v := v.(position := v.position.(z := v.position.z * -1.0));
    v := v.(normal := v.normal.(z := v.normal.z * -1.0));
  }

  /**
   * One f line: scan its indices, build the corners, and emit (1,3,2) and,
   * for a quad, (1,4,3): the winding is reversed.
   */
  method ReadFace(positions: seq<Float3>, uvs: seq<Float2>, normals: seq<Float3>, chars: ObjLine)
    returns (newUvs: seq<Float2>, emitted: seq<Vertex>)
    requires FaceFits(positions, uvs, normals, chars)
    ensures newUvs == FaceUvs(uvs, chars)
    ensures emitted == FaceVertices(positions, uvs, normals, chars)
  {
    var i, numbersRead;
    i, numbersRead, newUvs := ScanFace(uvs, chars);
    var v1 := MakeCorner(positions, newUvs, normals, i, 0);
    var v2 := MakeCorner(positions, newUvs, normals, i, 1);
    var v3 := MakeCorner(positions, newUvs, normals, i, 2);
    emitted := [v1, v3, v2];
    if numbersRead == 12 || numbersRead == 8 {
      var v4 := MakeCorner(positions, newUvs, normals, i, 3);
      emitted := emitted + [v1, v4, v3];
    }
  }

  /**
   * The reading loop. Each line is classified by its first two characters;
   * v, vt and vn lines append to their list, f lines append three or six
   * converted vertices, anything else is skipped.
   */
  method ReadObjLines(lines: seq<ObjLine>) returns (vertsFromFile: seq<Vertex>)
    requires Loadable(lines)
    ensures vertsFromFile == Parse(lines).vertsFromFile
  {
    var positions: seq<Float3> := [];
    var normals: seq<Float3> := [];
    var uvs: seq<Float2> := [];
    vertsFromFile := [];
    var k := 0;
    while k < |lines|
      invariant 0 <= k <= |lines|
      invariant Loadable(lines[..k])
      invariant ObjState(positions, normals, uvs, vertsFromFile) == Parse(lines[..k])
    {
      var chars := lines[k];
      LoadablePrefix(lines, k + 1);
      assert lines[..k + 1][..k] == lines[..k];
      ghost var before := ObjState(positions, normals, uvs, vertsFromFile);
      assert LineFits(before, chars);

      if CharAt(chars.text, 0) == 'v' && CharAt(chars.text, 1) == 'n' {
        normals := normals + [ReadFloat3(chars.floats)];
      } else if CharAt(chars.text, 0) == 'v' && CharAt(chars.text, 1) == 't' {
        uvs := uvs + [ReadFloat2(chars.floats)];
      } else if CharAt(chars.text, 0) == 'v' {
        positions := positions + [ReadFloat3(chars.floats)];
      } else if CharAt(chars.text, 0) == 'f' {
        var emitted;
        uvs, emitted := ReadFace(positions, uvs, normals, chars);
        vertsFromFile := vertsFromFile + emitted;
      }
      assert ObjState(positions, normals, uvs, vertsFromFile) == Step(before, chars);
      k := k + 1;
    }
    assert lines[..k] == lines;
  }

  // ---------------------------------------------------------------------
  // What reading guarantees

  /**
   * The triangle normal (b - a) x (c - a): its direction tells which side of
   * the triangle is the front for a given winding.
   */
  function FaceNormal(a: Float3, b: Float3, c: Float3): Float3
  {
    var u := Float3(b.x - a.x, b.y - a.y, b.z - a.z);
    var v := Float3(c.x - a.x, c.y - a.y, c.z - a.z);
    Float3(u.y * v.z - u.z * v.y, u.z * v.x - u.x * v.z, u.x * v.y - u.y * v.x)
  }

  /**
   * Mirroring z and reversing the winding together keep the front face the
   * front face: the emitted triangle's normal is the mirror of the source's,
   * exactly as the vertex normals are mirrored.
   */
  lemma MirroredReversedTriangleKeepsFacing(a: Float3, b: Float3, c: Float3)
    ensures FaceNormal(MirrorZ(a), MirrorZ(c), MirrorZ(b)) == MirrorZ(FaceNormal(a, b, c))
  {
  }

  /**
   * Every triangle a face emits faces the way its source triangle (corners
   * 1,2,3 and, for a quad, 1,3,4) faced, seen through the z mirror.
   */
  lemma FaceTrianglesKeepFacing(positions: seq<Float3>, uvs: seq<Float2>, normals: seq<Float3>, line: ObjLine)
    requires FaceFits(positions, uvs, normals, line)
    ensures var r := FaceVertices(positions, uvs, normals, line);
            var i := FaceIndices(line);
            var faceUvs := FaceUvs(uvs, line);
            var p0 := RawCorner(positions, faceUvs, normals, i, 0).position;
            var p1 := RawCorner(positions, faceUvs, normals, i, 1).position;
            var p2 := RawCorner(positions, faceUvs, normals, i, 2).position;
            && FaceNormal(r[0].position, r[1].position, r[2].position) == MirrorZ(FaceNormal(p0, p1, p2))
            && (HasFourth(line) ==>
                  FaceNormal(r[3].position, r[4].position, r[5].position)
                  == MirrorZ(FaceNormal(p0, p2, RawCorner(positions, faceUvs, normals, i, 3).position)))
  {
    var i := FaceIndices(line);
    var faceUvs := FaceUvs(uvs, line);
    var p0 := RawCorner(positions, faceUvs, normals, i, 0).position;
    var p1 := RawCorner(positions, faceUvs, normals, i, 1).position;
    var p2 := RawCorner(positions, faceUvs, normals, i, 2).position;
    MirroredReversedTriangleKeepsFacing(p0, p1, p2);
    if HasFourth(line) {
      MirroredReversedTriangleKeepsFacing(p0, p2, RawCorner(positions, faceUvs, normals, i, 3).position);
    }
  }

  /**
   * A face without UVs gives every vertex the first UV entry, flipped; when
   * the file has no UVs at all that is the supplied (0,0), which the flip
   * turns into (0,1).
   */
  lemma FallbackFaceSharesOneUv(positions: seq<Float3>, uvs: seq<Float2>, normals: seq<Float3>, line: ObjLine)
    requires FaceFits(positions, uvs, normals, line) && UsesFallback(line)
    ensures |FaceUvs(uvs, line)| > 0
    ensures forall v :: v in FaceVertices(positions, uvs, normals, line) ==>
              v.uv == Float2(FaceUvs(uvs, line)[0].x, 1.0 - FaceUvs(uvs, line)[0].y)
    ensures uvs == [] ==> forall v :: v in FaceVertices(positions, uvs, normals, line) ==> v.uv == Float2(0.0, 1.0)
  {
  }

  /** Number of lines of one kind. */
  function CountKind(lines: seq<ObjLine>, kind: LineKind): nat
  {
    if lines == [] then 0
    else CountKind(lines[..|lines| - 1], kind) + (if Kind(lines[|lines| - 1]) == kind then 1 else 0)
  }

  /** Number of face lines that emit a second triangle. */
  function CountQuads(lines: seq<ObjLine>): nat
  {
    if lines == [] then 0
    else
      var last := lines[|lines| - 1];
      CountQuads(lines[..|lines| - 1]) + (if Kind(last) == FaceLine && HasFourth(last) then 1 else 0)
  }

  /**
   * The list sizes after reading: one position per v line, one normal per vn
   * line, one UV per vt line plus possibly the supplied one, and three
   * vertices per face plus three more per quad.
   */
  lemma {:induction false} ParseSizes(lines: seq<ObjLine>)
    requires Loadable(lines)
    ensures |Parse(lines).positions| == CountKind(lines, PositionLine)
    ensures |Parse(lines).normals| == CountKind(lines, NormalLine)
    ensures CountKind(lines, UvLine) <= |Parse(lines).uvs| <= CountKind(lines, UvLine) + 1
    ensures |Parse(lines).vertsFromFile| == 3 * (CountKind(lines, FaceLine) + CountQuads(lines))
    ensures CountQuads(lines) <= CountKind(lines, FaceLine)
    decreases |lines|
  {
    if lines != [] {
      var prefix := lines[..|lines| - 1];
      ParseSizes(prefix);
      var last := lines[|lines| - 1];
      if Kind(last) == FaceLine && UsesFallback(last) && |Parse(prefix).uvs| == 0 {
        assert CountKind(prefix, UvLine) == 0;
      }
    }
  }

  /** Some line of the file is a face. */
  predicate HasFace(lines: seq<ObjLine>)
  {
    exists k :: 0 <= k < |lines| && Kind(lines[k]) == FaceLine
  }

  lemma {:induction false} CountFacesPositive(lines: seq<ObjLine>)
    ensures CountKind(lines, FaceLine) > 0 <==> HasFace(lines)
    decreases |lines|
  {
    if lines != [] {
      var prefix := lines[..|lines| - 1];
      CountFacesPositive(prefix);
      if HasFace(prefix) {
        var k :| 0 <= k < |prefix| && Kind(prefix[k]) == FaceLine;
        assert lines[k] == prefix[k];
      }
      if HasFace(lines) && Kind(lines[|lines| - 1]) != FaceLine {
        var k :| 0 <= k < |lines| && Kind(lines[k]) == FaceLine;
        assert prefix[k] == lines[k];
      }
    }
  }

  /**
   * The vertex list is whole triangles, and it is empty exactly when the
   * file has no face line.
   */
  lemma VerticesAreTriangles(lines: seq<ObjLine>)
    requires Loadable(lines)
    ensures |Parse(lines).vertsFromFile| % 3 == 0
    ensures |Parse(lines).vertsFromFile| > 0 <==> HasFace(lines)
  {
    ParseSizes(lines);
    CountFacesPositive(lines);
    var triangles := CountKind(lines, FaceLine) + CountQuads(lines);
    assert |Parse(lines).vertsFromFile| == 3 * triangles;
  }

  // ---------------------------------------------------------------------
  // De-duplication

  /** Some vertex of the list has key s. */
  predicate HasKey(vs: seq<Vertex>, key: Vertex -> string, s: string)
  {
    exists j :: 0 <= j < |vs| && key(vs[j]) == s
  }

  lemma HasKeyAppend(vs: seq<Vertex>, v: Vertex, key: Vertex -> string)
    ensures forall s :: HasKey(vs + [v], key, s) <==> HasKey(vs, key, s) || key(v) == s
  {
    forall s | HasKey(vs + [v], key, s) && key(v) != s
      ensures HasKey(vs, key, s)
    {
      var j :| 0 <= j < |vs + [v]| && key((vs + [v])[j]) == s;
      assert (vs + [v])[j] == vs[j];
    }
    forall s | HasKey(vs, key, s)
      ensures HasKey(vs + [v], key, s)
    {
      var j :| 0 <= j < |vs| && key(vs[j]) == s;
      assert (vs + [v])[j] == vs[j];
    }
    assert (vs + [v])[|vs|] == v;
  }

  /**
   * The first vertex of every key, in the order the keys first appear: the
   * vertex list the loader keeps.
   */
  function FirstOccurrences(vs: seq<Vertex>, key: Vertex -> string): (r: seq<Vertex>)
    ensures |r| <= |vs|
  {
    if vs == [] then []
    else
      var prefix := vs[..|vs| - 1];
      var v := vs[|vs| - 1];
      if HasKey(prefix, key, key(v)) then FirstOccurrences(prefix, key)
      else FirstOccurrences(prefix, key) + [v]
  }

  /** The kept list has exactly the keys of the whole list. */
  lemma {:induction false} FirstOccurrencesKeys(vs: seq<Vertex>, key: Vertex -> string)
    ensures forall s :: HasKey(FirstOccurrences(vs, key), key, s) <==> HasKey(vs, key, s)
    decreases |vs|
  {
    if vs != [] {
      var prefix := vs[..|vs| - 1];
      var v := vs[|vs| - 1];
      assert vs == prefix + [v];
      FirstOccurrencesKeys(prefix, key);
      HasKeyAppend(prefix, v, key);
      HasKeyAppend(FirstOccurrences(prefix, key), v, key);
    }
  }

  /** The kept vertices come from the list, and no two of them share a key. */
  lemma {:induction false} FirstOccurrencesDistinct(vs: seq<Vertex>, key: Vertex -> string)
    ensures forall a, b :: 0 <= a < b < |FirstOccurrences(vs, key)| ==>
              key(FirstOccurrences(vs, key)[a]) != key(FirstOccurrences(vs, key)[b])
    ensures forall v :: v in FirstOccurrences(vs, key) ==> v in vs
    decreases |vs|
  {
    if vs != [] {
      var prefix := vs[..|vs| - 1];
      var v := vs[|vs| - 1];
      FirstOccurrencesDistinct(prefix, key);
      FirstOccurrencesKeys(prefix, key);
      var p := FirstOccurrences(prefix, key);
      if !HasKey(prefix, key, key(v)) {
        assert forall a :: 0 <= a < |p| ==> HasKey(p, key, key(p[a]));
      }
    }
  }

  /**
   * Reading more vertices only appends to the kept list: an index handed
   * out once keeps naming the same vertex.
   */
  lemma {:induction false} FirstOccurrencesGrowsByAppending(vs: seq<Vertex>, key: Vertex -> string, j: nat)
    requires j <= |vs|
    ensures FirstOccurrences(vs[..j], key) <= FirstOccurrences(vs, key)
    decreases |vs| - j
  {
    if j < |vs| {
      var prefix := vs[..|vs| - 1];
      FirstOccurrencesGrowsByAppending(prefix, key, j);
      assert prefix[..j] == vs[..j];
    } else {
      assert vs[..j] == vs;
    }
  }

  /** A list whose keys are already distinct is kept whole. */
  lemma {:induction false} DistinctKeysAreKept(vs: seq<Vertex>, key: Vertex -> string)
    requires forall a, b :: 0 <= a < b < |vs| ==> key(vs[a]) != key(vs[b])
    ensures FirstOccurrences(vs, key) == vs
    decreases |vs|
  {
    if vs != [] {
      var prefix := vs[..|vs| - 1];
      var v := vs[|vs| - 1];
      DistinctKeysAreKept(prefix, key);
      assert vs == prefix + [v];
    }
  }

  /** One more vertex: kept when its key is new, dropped otherwise. */
  lemma FirstOccurrencesStep(vs: seq<Vertex>, key: Vertex -> string, k: nat)
    requires k < |vs|
    ensures HasKey(FirstOccurrences(vs[..k], key), key, key(vs[k])) ==>
              FirstOccurrences(vs[..k + 1], key) == FirstOccurrences(vs[..k], key)
    ensures !HasKey(FirstOccurrences(vs[..k], key), key, key(vs[k])) ==>
              FirstOccurrences(vs[..k + 1], key) == FirstOccurrences(vs[..k], key) + [vs[k]]
  {
    assert vs[..k + 1][..k] == vs[..k];
    FirstOccurrencesKeys(vs[..k], key);
  }

  /**
   * The kept vertex of a key is the first vertex with that key, and it sits
   * at the number of distinct keys seen before it: an index of the kept
   * list that matches vertex k's key, where k is the first of its key, is
   * exactly that position and holds exactly that vertex.
   */
  lemma FirstOfKeyIsKept(vs: seq<Vertex>, key: Vertex -> string, k: nat, i: nat)
    requires k < |vs| && !HasKey(vs[..k], key, key(vs[k]))
    requires i < |FirstOccurrences(vs, key)| && key(FirstOccurrences(vs, key)[i]) == key(vs[k])
    ensures i == |FirstOccurrences(vs[..k], key)|
    ensures FirstOccurrences(vs, key)[i] == vs[k]
  {
    var r := FirstOccurrences(vs, key);
    var n := |FirstOccurrences(vs[..k], key)|;
    FirstOccurrencesKeys(vs[..k], key);
    FirstOccurrencesStep(vs, key, k);
    FirstOccurrencesGrowsByAppending(vs, key, k + 1);
    assert r[n] == vs[k];
    FirstOccurrencesDistinct(vs, key);
  }

  /** De-duplicating twice gives what de-duplicating once gave. */
  lemma FirstOccurrencesIdempotent(vs: seq<Vertex>, key: Vertex -> string)
    ensures FirstOccurrences(FirstOccurrences(vs, key), key) == FirstOccurrences(vs, key)
  {
    FirstOccurrencesDistinct(vs, key);
    DistinctKeysAreKept(FirstOccurrences(vs, key), key);
  }

  /** The hash table maps exactly the keys of the kept list, each to its position. */
  ghost predicate MapsKeptKeys(vertMap: map<string, nat>, finalVertices: seq<Vertex>, key: Vertex -> string)
  {
    && (forall s :: s in vertMap <==> HasKey(finalVertices, key, s))
    && (forall s :: s in vertMap ==> vertMap[s] < |finalVertices| && key(finalVertices[vertMap[s]]) == s)
  }

  /** Inserting a new key at the next position keeps the table and the list in step. */
  lemma InsertKeepsMap(vertMap: map<string, nat>, finalVertices: seq<Vertex>, key: Vertex -> string, v: Vertex)
    requires MapsKeptKeys(vertMap, finalVertices, key) && key(v) !in vertMap
    ensures MapsKeptKeys(vertMap[key(v) := |finalVertices|], finalVertices + [v], key)
  {
    HasKeyAppend(finalVertices, v, key);
    var fv := finalVertices + [v];
    forall s | s in vertMap
      ensures fv[vertMap[s]] == finalVertices[vertMap[s]]
    {
    }
  }

  /**
   * One probe of the hash table: a key not yet in it is given the next
   * position and its vertex appended; a key already in it gives back its
   * position and changes nothing.
   */
  method FindOrInsert(vertMap: map<string, nat>, finalVertices: seq<Vertex>, key: Vertex -> string, v: Vertex)
    returns (index: nat, newMap: map<string, nat>, newVertices: seq<Vertex>)
    requires MapsKeptKeys(vertMap, finalVertices, key)
    ensures MapsKeptKeys(newMap, newVertices, key)
    ensures index < |newVertices| && key(newVertices[index]) == key(v)
    ensures finalVertices <= newVertices
    ensures key(v) in vertMap ==> index == vertMap[key(v)]
    ensures HasKey(finalVertices, key, key(v)) ==> newVertices == finalVertices && newMap == vertMap
    ensures !HasKey(finalVertices, key, key(v)) ==> newVertices == finalVertices + [v] && index == |finalVertices|
  {
    var vStr := key(v);
    if vStr !in vertMap {
      // Vertex not found: first time this key is seen
      index := |finalVertices|;
      InsertKeepsMap(vertMap, finalVertices, key, v);
      newVertices := finalVertices + [v];
      newMap := vertMap[vStr := index];
    } else {
      // Already there: reuse its index
      index := vertMap[vStr];
      newVertices := finalVertices;
      newMap := vertMap;
    }
  }

  /**
   * The hash-table pass: a vertex whose key was not seen before is appended
   * and gets the next index; one whose key was seen reuses that index.
   */
  method Deduplicate(vertsFromFile: seq<Vertex>, key: Vertex -> string)
    returns (finalVertices: seq<Vertex>, finalIndices: seq<nat>)
    ensures finalVertices == FirstOccurrences(vertsFromFile, key)
    ensures |finalIndices| == |vertsFromFile|
    ensures forall k :: 0 <= k < |finalIndices| ==>
              finalIndices[k] < |finalVertices| && key(finalVertices[finalIndices[k]]) == key(vertsFromFile[k])
  {
    var vertMap: map<string, nat> := map[];
    finalVertices := [];
    finalIndices := [];
    var k := 0;
    while k < |vertsFromFile|
      invariant 0 <= k <= |vertsFromFile|
      invariant finalVertices == FirstOccurrences(vertsFromFile[..k], key)
      invariant |finalIndices| == k
      invariant MapsKeptKeys(vertMap, finalVertices, key)
      invariant forall j :: 0 <= j < k ==>
                  finalIndices[j] < |finalVertices| && key(finalVertices[finalIndices[j]]) == key(vertsFromFile[j])
    {
      var v := vertsFromFile[k];
      FirstOccurrencesStep(vertsFromFile, key, k);
      ghost var before := finalVertices;
      var index;
      index, vertMap, finalVertices := FindOrInsert(vertMap, finalVertices, key, v);
      finalIndices := finalIndices + [index];
      k := k + 1;
    }
    assert vertsFromFile[..k] == vertsFromFile;
  }

  /**
   * Vertices with the same key get the same index, and vertices with
   * different keys different indices: the indices Deduplicate hands out
   * tell the keys apart exactly.
   */
  lemma SameKeySameIndex(vs: seq<Vertex>, key: Vertex -> string, indices: seq<nat>, a: nat, b: nat)
    requires |indices| == |vs| && a < |vs| && b < |vs|
    requires forall k :: 0 <= k < |indices| ==>
               indices[k] < |FirstOccurrences(vs, key)| && key(FirstOccurrences(vs, key)[indices[k]]) == key(vs[k])
    ensures indices[a] == indices[b] <==> key(vs[a]) == key(vs[b])
  {
    FirstOccurrencesDistinct(vs, key);
    var r := FirstOccurrences(vs, key);
    assert key(r[indices[a]]) == key(vs[a]) && key(r[indices[b]]) == key(vs[b]);
  }

  /**
   * When the key tells apart any two different vertices of the list, the
   * kept vertices and the indices rebuild the list exactly. (The string of
   * six-decimal numbers the loader uses can merge vertices closer than that.)
   */
  lemma IndicesRebuildVertices(vs: seq<Vertex>, key: Vertex -> string, indices: seq<nat>)
    requires forall a, b :: a in vs && b in vs && key(a) == key(b) ==> a == b
    requires |indices| == |vs|
    requires forall k :: 0 <= k < |indices| ==>
               indices[k] < |FirstOccurrences(vs, key)| && key(FirstOccurrences(vs, key)[indices[k]]) == key(vs[k])
    ensures forall k :: 0 <= k < |indices| ==> FirstOccurrences(vs, key)[indices[k]] == vs[k]
  {
    FirstOccurrencesDistinct(vs, key);
    var r := FirstOccurrences(vs, key);
    forall k | 0 <= k < |indices|
      ensures r[indices[k]] == vs[k]
    {
      assert r[indices[k]] in r;
    }
  }

  // ---------------------------------------------------------------------
  // The mesh

  /** The vertex and index lists a mesh loaded from a file holds, and their counts. */
  class Mesh {
    var displayName: string
    var vertexCount: nat
    var indexCount: nat
    var vertices: seq<Vertex>   // what the vertex buffer is created from
    var indices: seq<nat>       // what the index buffer is created from

    /** Counts match the lists, the triangles are whole and every index names a vertex. */
    ghost predicate Valid()
      reads this
    {
      && vertexCount == |vertices|
      && indexCount == |indices|
      && 0 < vertexCount <= indexCount
      && indexCount % 3 == 0
      && forall k :: 0 <= k < |indices| ==> indices[k] < |vertices|
    }

    /** Mesh(objFile) once the file is open: read, convert, de-duplicate, count. */
    constructor FromObj(lines: seq<ObjLine>, key: Vertex -> string)
      requires Loadable(lines) && HasFace(lines)
      ensures Valid() && displayName == ""
      ensures vertices == FirstOccurrences(Parse(lines).vertsFromFile, key)
      ensures |indices| == |Parse(lines).vertsFromFile|
      ensures forall k :: 0 <= k < |indices| ==> key(vertices[indices[k]]) == key(Parse(lines).vertsFromFile[k])
    {
      var vertsFromFile := ReadObjLines(lines);
      VerticesAreTriangles(lines);
      var finalVertices, finalIndices := Deduplicate(vertsFromFile, key);
      assert key(finalVertices[finalIndices[0]]) == key(vertsFromFile[0]);
      displayName := "";
      vertices := finalVertices;
      indices := finalIndices;
      vertexCount := |finalVertices|;
      indexCount := |finalIndices|;
    }

    method GetIndexCount() returns (n: nat)
      ensures n == indexCount
    {
      n := indexCount;
    }

    method GetVertexCount() returns (n: nat)
      ensures n == vertexCount
    {
      n := vertexCount;
    }

    method GetName() returns (name: string)
      ensures name == displayName
    {
      name := displayName;
    }
  }

  /** A file as the loader finds it: not openable, or the lines it holds. */
  datatype ObjFile = Unopenable | Opened(lines: seq<ObjLine>)

  datatype LoadError = InvalidArgument(message: string)

  datatype Result<T> = Success(value: T) | Failure(error: LoadError)

  const OpenErrorMessage := "Error opening file: Invalid file path or file is inaccessible"

  /** Mesh(objFile): a file that cannot be opened throws invalid_argument; any other loads. */
  method LoadMesh(objFile: ObjFile, key: Vertex -> string) returns (r: Result<Mesh>)
    requires objFile.Opened? ==> Loadable(objFile.lines) && HasFace(objFile.lines)
    ensures objFile.Unopenable? <==> r.Failure?
    ensures r.Failure? ==> r.error == InvalidArgument(OpenErrorMessage)
    ensures r.Success? ==>
              && fresh(r.value) && r.value.Valid() && r.value.displayName == ""
              && r.value.vertices == FirstOccurrences(Parse(objFile.lines).vertsFromFile, key)
              && |r.value.indices| == |Parse(objFile.lines).vertsFromFile|
              && (forall k :: 0 <= k < |r.value.indices| ==>
                    key(r.value.vertices[r.value.indices[k]]) == key(Parse(objFile.lines).vertsFromFile[k]))
  {
    if objFile.Unopenable? {
      return Failure(InvalidArgument(OpenErrorMessage));
    }
    var mesh := new Mesh.FromObj(objFile.lines, key);
    r := Success(mesh);
  }

  /** Mesh(name, objFile): the same load, then the display name is set. */
  method LoadNamedMesh(name: string, objFile: ObjFile, key: Vertex -> string) returns (r: Result<Mesh>)
    requires objFile.Opened? ==> Loadable(objFile.lines) && HasFace(objFile.lines)
    ensures objFile.Unopenable? <==> r.Failure?
    ensures r.Failure? ==> r.error == InvalidArgument(OpenErrorMessage)
    ensures r.Success? ==>
              && fresh(r.value) && r.value.Valid() && r.value.displayName == name
              && r.value.vertices == FirstOccurrences(Parse(objFile.lines).vertsFromFile, key)
              && |r.value.indices| == |Parse(objFile.lines).vertsFromFile|
              && (forall k :: 0 <= k < |r.value.indices| ==>
                    key(r.value.vertices[r.value.indices[k]]) == key(Parse(objFile.lines).vertsFromFile[k]))
  {
    r := LoadMesh(objFile, key);
    if r.Success? {
      r.value.displayName := name;
    }
  }
}
