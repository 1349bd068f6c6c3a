/** `Shape_From_File.parse_into_mesh`: a Wavefront OBJ file is read line by
    line; `v`, `vn` and `vt` lines collect raw coordinates, and every face
    token (such as `3/1/2`) met for the first time gets the next vertex
    index, while a token seen before reuses its index. Four-token faces are
    cut into two triangles. Coordinates stay symbolic: the model records
    which token each unpacked coordinate was looked up for. */
module ObjFile {
  import opened ObjText
  import opened Wrappers

  /** The `k`-th coordinate looked up for a face token from the position,
      normal or texture list. */
  datatype Attr = Position(token: string, k: nat) | Normal(token: string, k: nat) | TexCoord(token: string, k: nat)

  /** The `unpacked` record of the loader. */
  datatype Unpacked = Unpacked(
    verts: seq<Attr>,
    norms: seq<Attr>,
    textures: seq<Attr>,
    hashindices: map<string, nat>,
    indices: seq<nat>,
    index: nat)

  /** The loader's local state: the raw `v`, `vn` and `vt` entries and the
      unpacked record. */
  datatype Parse = Parse(verts: seq<string>, vertNormals: seq<string>, textures: seq<string>, unpacked: Unpacked)

  datatype LineKind = VertexLine | NormalLine | TextureLine | FaceLine | OtherLine

  function EmptyUnpacked(): Unpacked
  {
    Unpacked([], [], [], map[], [], 0)
  }

  function Start(): Parse
  {
    Parse([], [], [], EmptyUnpacked())
  }

  /** What the unpacked record keeps true: three position and three normal
      coordinates per index, at most two texture coordinates per index, one
      dictionary entry per index, every emitted index below `index`, and the
      coordinates stored at a token's index are the ones looked up for it. */
  predicate Valid(u: Unpacked)
  {
    Counts(u) && Stored(u)
  }

  predicate Counts(u: Unpacked)
  {
    && |u.verts| == 3 * u.index
    && |u.norms| == 3 * u.index
    && |u.textures| <= 2 * u.index && |u.textures| % 2 == 0
    && |u.hashindices| == u.index
    && (forall t :: t in u.hashindices ==> u.hashindices[t] < u.index)
    && (forall n :: 0 <= n < |u.indices| ==> u.indices[n] < u.index)
  }

  predicate Stored(u: Unpacked)
  {
    forall t :: t in u.hashindices ==> StoredAt(u.verts, u.hashindices[t], t)
  }

  /** Position coordinates `3 * i` to `3 * i + 2` are the ones looked up for
      token `t`. */
  predicate StoredAt(verts: seq<Attr>, i: nat, t: string)
  {
    && 3 * i + 3 <= |verts|
    && verts[3 * i] == Position(t, 0)
    && verts[3 * i + 1] == Position(t, 1)
    && verts[3 * i + 2] == Position(t, 2)
  }

  /** The three position coordinates looked up for a token. */
  function Coordinates(t: string): seq<Attr>
  {
    [Position(t, 0), Position(t, 1), Position(t, 2)]
  }

  /** `m2` keeps every entry of `m1`. */
  predicate Extends(m1: map<string, nat>, m2: map<string, nat>)
  {
    forall t :: t in m1 ==> t in m2 && m2[t] == m1[t]
  }

  /** The classification of a trimmed line by its first word. */
  function Classify(t: string): (k: LineKind)
    ensures k != OtherLine ==> |t| >= 2
  {
    if HasTag(t, "v") then VertexLine
    else if HasTag(t, "vn") then NormalLine
    else if HasTag(t, "vt") then TextureLine
    else if HasTag(t, "f") then FaceLine
    else OtherLine
  }

  /** One face token: its stored index when seen before; otherwise its
      coordinates (texture coordinates only when some `vt` line came first),
      the next index, and a dictionary entry. */
  function AddToken(u: Unpacked, token: string, withTextures: bool): (r: Unpacked)
    ensures token in r.hashindices && u.hashindices.Keys <= r.hashindices.Keys
  {
    if token in u.hashindices then
      u.(indices := u.indices + [u.hashindices[token]])
    else
      u.(verts := u.verts + [Position(token, 0), Position(token, 1), Position(token, 2)],
         textures := if withTextures then u.textures + [TexCoord(token, 0), TexCoord(token, 1)] else u.textures,
         norms := u.norms + [Normal(token, 0), Normal(token, 1), Normal(token, 2)],
         hashindices := u.hashindices[token := u.index],
         indices := u.indices + [u.index],
         index := u.index + 1)
  }

  /** A token keeps its stored index, and the token's own index is emitted
      after the earlier ones. */
  lemma AddTokenEmits(u: Unpacked, token: string, withTextures: bool)
    ensures var r := AddToken(u, token, withTextures);
      && Extends(u.hashindices, r.hashindices)
      && r.indices == u.indices + [r.hashindices[token]]
  {
  }

  /** A token met for the first time gets the next index and brings three
      position and three normal coordinates of its own. */
  lemma FirstSight(u: Unpacked, token: string, withTextures: bool)
    requires token !in u.hashindices
    ensures var r := AddToken(u, token, withTextures);
      && r.index == u.index + 1
      && r.hashindices == u.hashindices[token := u.index]
      && r.indices == u.indices + [u.index]
      && r.verts == u.verts + [Position(token, 0), Position(token, 1), Position(token, 2)]
      && r.norms == u.norms + [Normal(token, 0), Normal(token, 1), Normal(token, 2)]
      && |r.textures| == |u.textures| + if withTextures then 2 else 0
  {
  }

  /** A token seen before only repeats its stored index. */
  lemma Repeat(u: Unpacked, token: string, withTextures: bool)
    requires token in u.hashindices
    ensures AddToken(u, token, withTextures) == u.(indices := u.indices + [u.hashindices[token]])
  {
  }

  lemma AddTokenValid(u: Unpacked, token: string, withTextures: bool)
    requires Valid(u)
    ensures Valid(AddToken(u, token, withTextures))
  {
    if token !in u.hashindices {
      NewTokenCounts(u, token, withTextures);
      NewTokenStored(u, token, withTextures);
    }
  }

  lemma NewTokenCounts(u: Unpacked, token: string, withTextures: bool)
    requires Counts(u) && token !in u.hashindices
    ensures Counts(AddToken(u, token, withTextures))
  {
    var r := AddToken(u, token, withTextures);
    assert r.hashindices == u.hashindices[token := u.index];
    assert r.indices == u.indices + [u.index];
  }

  lemma NewTokenStored(u: Unpacked, token: string, withTextures: bool)
    requires Valid(u) && token !in u.hashindices
    requires Counts(AddToken(u, token, withTextures))
    ensures Stored(AddToken(u, token, withTextures))
  {
    var r := AddToken(u, token, withTextures);
    assert r.verts == u.verts + Coordinates(token);
    assert r.hashindices == u.hashindices[token := u.index];
    forall t | t in r.hashindices
      ensures StoredAt(r.verts, r.hashindices[t], t)
    {
      if t != token {
        var i := u.hashindices[t];
        assert StoredAt(u.verts, i, t);
        assert r.verts[..|u.verts|] == u.verts;
      }
    }
  }

  /** The face loop from position `j`: at `j == 3` on a face not yet known to
      be a quad, it steps back to the third token and marks the face as a
      quad; after the fourth token of a quad it repeats the first. */
  function FaceFrom(u: Unpacked, es: seq<string>, j: nat, quad: bool, withTextures: bool): Unpacked
    requires j <= |es|
    requires j > 0 ==> es[0] in u.hashindices
    decreases |es| - j + (if quad then 0 else 1)
  {
    if j == |es| then u
    else if j == 3 && !quad then FaceFrom(Visit(u, es, 2, true, withTextures), es, 3, true, withTextures)
    else FaceFrom(Visit(u, es, j, quad, withTextures), es, j + 1, quad, withTextures)
  }

  /** One pass of the face loop's body at position `j`. */
  function Visit(u: Unpacked, es: seq<string>, j: nat, quad: bool, withTextures: bool): (r: Unpacked)
    requires j < |es|
    requires j > 0 ==> es[0] in u.hashindices
    ensures es[0] in r.hashindices
  {
    var u1 := AddToken(u, es[j], withTextures);
    if j == 3 && quad then u1.(indices := u1.indices + [u1.hashindices[es[0]]]) else u1
  }

  lemma VisitValid(u: Unpacked, es: seq<string>, j: nat, quad: bool, withTextures: bool)
    requires j < |es|
    requires j > 0 ==> es[0] in u.hashindices
    requires Valid(u)
    ensures Valid(Visit(u, es, j, quad, withTextures))
  {
    var u1 := AddToken(u, es[j], withTextures);
    AddTokenValid(u, es[j], withTextures);
    if j == 3 && quad {
      RepeatFirstValid(u1, es[0]);
    }
  }

  /** One turn of the face loop. */
  lemma FaceFromStep(u: Unpacked, es: seq<string>, j: nat, quad: bool, withTextures: bool)
    requires j < |es|
    requires j > 0 ==> es[0] in u.hashindices
    ensures var rewind := j == 3 && !quad;
      var j' := if rewind then 2 else j;
      FaceFrom(u, es, j, quad, withTextures) ==
        FaceFrom(Visit(u, es, j', quad || rewind, withTextures), es, j' + 1, quad || rewind, withTextures)
  {
  }

  /** Whatever one pass of the loop body keeps true, the whole face loop
      keeps true. */
  lemma {:induction false} FaceFromKeeps(keep: Unpacked -> bool, u: Unpacked, es: seq<string>, j: nat, quad: bool, withTextures: bool)
    requires j <= |es|
    requires j > 0 ==> es[0] in u.hashindices
    requires keep(u)
    requires forall x: Unpacked, i: nat, q: bool | i < |es| && (i > 0 ==> es[0] in x.hashindices) && keep(x) ::
      keep(Visit(x, es, i, q, withTextures))
    ensures keep(FaceFrom(u, es, j, quad, withTextures))
    decreases |es| - j + (if quad then 0 else 1)
  {
    if j < |es| {
      if j == 3 && !quad {
        FaceFromKeeps(keep, Visit(u, es, 2, true, withTextures), es, 3, true, withTextures);
      } else {
        FaceFromKeeps(keep, Visit(u, es, j, quad, withTextures), es, j + 1, quad, withTextures);
      }
    }
  }

  lemma FaceFromValid(u: Unpacked, es: seq<string>, j: nat, quad: bool, withTextures: bool)
    requires j <= |es|
    requires j > 0 ==> es[0] in u.hashindices
    requires Valid(u)
    ensures Valid(FaceFrom(u, es, j, quad, withTextures))
  {
    forall x: Unpacked, i: nat, q: bool | i < |es| && (i > 0 ==> es[0] in x.hashindices) && Valid(x)
      ensures Valid(Visit(x, es, i, q, withTextures))
    {
      VisitValid(x, es, i, q, withTextures);
    }
    FaceFromKeeps(Valid, u, es, j, quad, withTextures);
  }

  /** Pushing the stored index of a known token keeps the record valid. */
  lemma RepeatFirstValid(u: Unpacked, first: string)
    requires Valid(u) && first in u.hashindices
    ensures Valid(u.(indices := u.indices + [u.hashindices[first]]))
  {
    var r := u.(indices := u.indices + [u.hashindices[first]]);
    assert Counts(r);
  }

  /** The work of one line. */
  function ParseLine(p: Parse, line: string): (r: Parse)
  {
    var t := Trim(line);
    var elements := SplitWords(t)[1..];
    match Classify(t)
    case VertexLine => p.(verts := p.verts + elements)
    case NormalLine => p.(vertNormals := p.vertNormals + elements)
    case TextureLine => p.(textures := p.textures + elements)
    case FaceLine => p.(unpacked := FaceFrom(p.unpacked, elements, 0, false, |p.textures| > 0))
    case OtherLine => p
  }

  /** The loader's state after the given lines. */
  function ParseLines(lines: seq<string>): (r: Parse)
    decreases |lines|
  {
    if lines == [] then Start()
    else ParseLine(ParseLines(lines[..|lines| - 1]), lines[|lines| - 1])
  }

  lemma ParseLinesStep(lines: seq<string>, i: nat)
    requires i < |lines|
    ensures ParseLines(lines[..i + 1]) == ParseLine(ParseLines(lines[..i]), lines[i])
  {
    assert lines[..i + 1][..i] == lines[..i];
  }

  lemma ParseLineValid(p: Parse, line: string)
    requires Valid(p.unpacked)
    ensures Valid(ParseLine(p, line).unpacked)
  {
    var t := Trim(line);
    if Classify(t) == FaceLine {
      FaceFromValid(p.unpacked, SplitWords(t)[1..], 0, false, |p.textures| > 0);
    }
  }

  lemma {:induction false} ParseLinesValid(lines: seq<string>)
    ensures Valid(ParseLines(lines).unpacked)
    decreases |lines|
  {
    if lines != [] {
      ParseLinesValid(lines[..|lines| - 1]);
      ParseLineValid(ParseLines(lines[..|lines| - 1]), lines[|lines| - 1]);
    }
  }

  /** The unpacked record after a whole file. */
  function Unpack(data: string): Unpacked
  {
    ParseLines(SplitLines(data)).unpacked
  }

  /** Three position and three normal coordinates per index. */
  predicate Counted(u: Unpacked)
  {
    |u.verts| == 3 * u.index && |u.norms| == 3 * u.index
  }

  lemma ParsedCounts(lines: seq<string>)
    ensures Counted(ParseLines(lines).unpacked)
  {
    ParseLinesValid(lines);
  }

  /** A corner of the finished mesh: three coordinates, or two for a texture
      coordinate, where a missing texture entry reads as `undefined`. */
  datatype Vec3 = Vec3(x: Attr, y: Attr, z: Attr)
  datatype Vec2 = Vec2(u: Option<Attr>, v: Option<Attr>)

  function Lookup(s: seq<Attr>, i: nat): Option<Attr>
  {
    if i < |s| then Some(s[i]) else None
  }

  /** The first `n` positions of the finished mesh. */
  function Positions(u: Unpacked, n: nat): (r: seq<Vec3>)
    requires 3 * n <= |u.verts|
    ensures |r| == n
  {
    if n == 0 then [] else Positions(u, n - 1) + [Vec3(u.verts[3 * n - 3], u.verts[3 * n - 2], u.verts[3 * n - 1])]
  }

  function Normals(u: Unpacked, n: nat): (r: seq<Vec3>)
    requires 3 * n <= |u.norms|
    ensures |r| == n
  {
    if n == 0 then [] else Normals(u, n - 1) + [Vec3(u.norms[3 * n - 3], u.norms[3 * n - 2], u.norms[3 * n - 1])]
  }

  function TexCoords(u: Unpacked, n: nat): (r: seq<Vec2>)
    ensures |r| == n
  {
    if n == 0 then [] else TexCoords(u, n - 1) + [Vec2(Lookup(u.textures, 2 * n - 2), Lookup(u.textures, 2 * n - 1))]
  }

  // ---------------------------------------------------------------- properties

  /** The first three passes of the face loop. */
  function FirstThree(u: Unpacked, es: seq<string>, withTextures: bool): (r: Unpacked)
    requires |es| >= 3
    ensures es[0] in r.hashindices && es[1] in r.hashindices && es[2] in r.hashindices
  {
    Visit(Visit(Visit(u, es, 0, false, withTextures), es, 1, false, withTextures), es, 2, false, withTextures)
  }

  lemma FirstThreeLoop(u: Unpacked, es: seq<string>, withTextures: bool)
    requires |es| >= 3
    ensures FaceFrom(u, es, 0, false, withTextures) == FaceFrom(FirstThree(u, es, withTextures), es, 3, false, withTextures)
  {
    var u1 := Visit(u, es, 0, false, withTextures);
    var u2 := Visit(u1, es, 1, false, withTextures);
    FaceFromStep(u, es, 0, false, withTextures);
    FaceFromStep(u1, es, 1, false, withTextures);
    FaceFromStep(u2, es, 2, false, withTextures);
  }

  lemma FirstThreeIndices(u: Unpacked, es: seq<string>, withTextures: bool)
    requires |es| >= 3
    ensures var u3 := FirstThree(u, es, withTextures);
      var h := u3.hashindices;
      u3.indices == u.indices + [h[es[0]], h[es[1]], h[es[2]]]
  {
    var u1 := Visit(u, es, 0, false, withTextures);
    var u2 := Visit(u1, es, 1, false, withTextures);
    var u3 := Visit(u2, es, 2, false, withTextures);
    VisitIndices(u, es, 0, false, withTextures);
    VisitIndices(u1, es, 1, false, withTextures);
    VisitIndices(u2, es, 2, false, withTextures);
    assert u1.hashindices[es[0]] == u3.hashindices[es[0]];
    assert u2.hashindices[es[1]] == u3.hashindices[es[1]];
  }

  /** A three-token face emits the indices of its three tokens. */
  lemma TriangleFace(u: Unpacked, es: seq<string>, withTextures: bool)
    requires |es| == 3
    ensures var r := FaceFrom(u, es, 0, false, withTextures);
      var h := r.hashindices;
      && es[0] in h && es[1] in h && es[2] in h
      && r.indices == u.indices + [h[es[0]], h[es[1]], h[es[2]]]
  {
    FirstThreeLoop(u, es, withTextures);
    FirstThreeIndices(u, es, withTextures);
  }

  /** A four-token face emits two triangles, e0 e1 e2 and e2 e3 e0. */
  lemma QuadFace(u: Unpacked, es: seq<string>, withTextures: bool)
    requires |es| == 4
    ensures var r := FaceFrom(u, es, 0, false, withTextures);
      var h := r.hashindices;
      && es[0] in h && es[1] in h && es[2] in h && es[3] in h
      && r.indices == u.indices + [h[es[0]], h[es[1]], h[es[2]], h[es[2]], h[es[3]], h[es[0]]]
  {
    FirstThreeLoop(u, es, withTextures);
    FirstThreeIndices(u, es, withTextures);
    var u3 := FirstThree(u, es, withTextures);
    var u4 := Visit(u3, es, 2, true, withTextures);
    var u5 := Visit(u4, es, 3, true, withTextures);
    FaceFromStep(u3, es, 3, false, withTextures);
    FaceFromStep(u4, es, 3, true, withTextures);
    VisitIndices(u3, es, 2, true, withTextures);
    VisitIndices(u4, es, 3, true, withTextures);
    assert FaceFrom(u, es, 0, false, withTextures) == u5;
    assert u3.hashindices[es[0]] == u5.hashindices[es[0]];
    assert u3.hashindices[es[1]] == u5.hashindices[es[1]];
    assert u3.hashindices[es[2]] == u4.hashindices[es[2]] == u5.hashindices[es[2]];
  }

  /** What one pass of the loop body emits; stored indices stay as they
      were. */
  lemma VisitIndices(u: Unpacked, es: seq<string>, j: nat, quad: bool, withTextures: bool)
    requires j < |es|
    requires j > 0 ==> es[0] in u.hashindices
    ensures var r := Visit(u, es, j, quad, withTextures);
      && Extends(u.hashindices, r.hashindices)
      && r.indices == u.indices + [r.hashindices[es[j]]] + if j == 3 && quad then [r.hashindices[es[0]]] else []
  {
    AddTokenEmits(u, es[j], withTextures);
  }

  /** The face loop only appends to the emitted indices. */
  lemma FaceFromAppends(u: Unpacked, es: seq<string>, j: nat, quad: bool, withTextures: bool)
    requires j <= |es|
    requires j > 0 ==> es[0] in u.hashindices
    ensures var r := FaceFrom(u, es, j, quad, withTextures);
      |r.indices| >= |u.indices| && r.indices[..|u.indices|] == u.indices
  {
    var before := u.indices;
    var keep := (x: Unpacked) => |x.indices| >= |before| && x.indices[..|before|] == before;
    forall x: Unpacked, i: nat, q: bool | i < |es| && (i > 0 ==> es[0] in x.hashindices) && keep(x)
      ensures keep(Visit(x, es, i, q, withTextures))
    {
      VisitIndices(x, es, i, q, withTextures);
      var r := Visit(x, es, i, q, withTextures);
      assert r.indices[..|before|] == r.indices[..|x.indices|][..|before|];
    }
    FaceFromKeeps(keep, u, es, j, quad, withTextures);
  }

  /** The distinct tokens of a sequence. */
  function Tokens(es: seq<string>): set<string>
  {
    set t | t in es
  }

  /** Every token of the face from `j` on ends up in the dictionary, and no
      other key is added. */
  lemma FaceFromKeys(u: Unpacked, es: seq<string>, j: nat, quad: bool, withTextures: bool)
    requires j <= |es|
    requires forall n :: 0 <= n < j ==> es[n] in u.hashindices
    ensures forall t :: t in FaceFrom(u, es, j, quad, withTextures).hashindices <==> t in u.hashindices || t in es
  {
    var keys := u.hashindices.Keys;
    var keep := (x: Unpacked) => keys <= x.hashindices.Keys <= keys + Tokens(es);
    forall x: Unpacked, i: nat, q: bool | i < |es| && (i > 0 ==> es[0] in x.hashindices) && keep(x)
      ensures keep(Visit(x, es, i, q, withTextures))
    {
      VisitKeys(x, es, i, q, withTextures);
      assert es[i] in Tokens(es);
    }
    FaceFromKeeps(keep, u, es, j, quad, withTextures);
    FaceFromCovers(u, es, j, quad, withTextures);
    var r := FaceFrom(u, es, j, quad, withTextures);
    forall t | t in es
      ensures t in r.hashindices
    {
      var n :| 0 <= n < |es| && es[n] == t;
    }
  }

  /** Every token of the face ends up in the dictionary. */
  lemma {:induction false} FaceFromCovers(u: Unpacked, es: seq<string>, j: nat, quad: bool, withTextures: bool)
    requires j <= |es|
    requires forall n :: 0 <= n < j ==> es[n] in u.hashindices
    ensures forall n :: 0 <= n < |es| ==> es[n] in FaceFrom(u, es, j, quad, withTextures).hashindices
    decreases |es| - j + (if quad then 0 else 1)
  {
    if j < |es| {
      var j', q := if j == 3 && !quad then 2 else j, quad || (j == 3 && !quad);
      var v := Visit(u, es, j', q, withTextures);
      VisitKeys(u, es, j', q, withTextures);
      FaceFromCovers(v, es, j' + 1, q, withTextures);
      FaceFromStep(u, es, j, quad, withTextures);
    }
  }

  lemma KeysAfterToken(u: Unpacked, token: string, withTextures: bool)
    ensures AddToken(u, token, withTextures).hashindices.Keys == u.hashindices.Keys + {token}
  {
  }

  /** One pass adds its token as the only new key. */
  lemma VisitKeys(u: Unpacked, es: seq<string>, j: nat, quad: bool, withTextures: bool)
    requires j < |es|
    requires j > 0 ==> es[0] in u.hashindices
    ensures Visit(u, es, j, quad, withTextures).hashindices.Keys == u.hashindices.Keys + {es[j]}
  {
    KeysAfterToken(u, es[j], withTextures);
  }

  /** The tokens of every face line among `lines`. */
  function FaceTokens(lines: seq<string>): set<string>
    decreases |lines|
  {
    if lines == [] then {}
    else
      var t := Trim(lines[|lines| - 1]);
      FaceTokens(lines[..|lines| - 1]) + if Classify(t) == FaceLine then Tokens(SplitWords(t)[1..]) else {}
  }

  /** The dictionary holds exactly the distinct face tokens of the file, and
      the index counter is their number. */
  lemma {:induction false} ParsedTokens(lines: seq<string>)
    ensures ParseLines(lines).unpacked.hashindices.Keys == FaceTokens(lines)
    ensures ParseLines(lines).unpacked.index == |FaceTokens(lines)|
    decreases |lines|
  {
    ParseLinesValid(lines);
    if lines != [] {
      var prefix := lines[..|lines| - 1];
      ParsedTokens(prefix);
      LineKeys(ParseLines(prefix), lines[|lines| - 1]);
    }
  }

  /** One line adds the tokens of a face line to the dictionary's keys. */
  lemma LineKeys(p: Parse, line: string)
    ensures var t := Trim(line);
      ParseLine(p, line).unpacked.hashindices.Keys ==
        p.unpacked.hashindices.Keys + if Classify(t) == FaceLine then Tokens(SplitWords(t)[1..]) else {}
  {
    var t := Trim(line);
    if Classify(t) == FaceLine {
      var es := SplitWords(t)[1..];
      FaceFromKeys(p.unpacked, es, 0, false, |p.textures| > 0);
      var r := ParseLine(p, line).unpacked;
      assert r.hashindices.Keys == p.unpacked.hashindices.Keys + Tokens(es);
    }
  }

  lemma {:induction false} PositionsAt(u: Unpacked, n: nat, i: nat)
    requires 3 * n <= |u.verts| && i < n
    ensures Positions(u, n)[i] == Vec3(u.verts[3 * i], u.verts[3 * i + 1], u.verts[3 * i + 2])
  {
    if i < n - 1 {
      PositionsAt(u, n - 1, i);
    }
  }

  /** The finished mesh: every emitted index names one of its positions, one
      position per distinct face token, and the position at a token's index
      holds the coordinates looked up for that token. */
  lemma ParsedMesh(data: string)
    ensures var u := Unpack(data);
      && Valid(u)
      && |Positions(u, u.index)| == u.index == |u.hashindices|
      && (forall n :: 0 <= n < |u.indices| ==> u.indices[n] < |Positions(u, u.index)|)
      && (forall t :: t in u.hashindices ==>
            Positions(u, u.index)[u.hashindices[t]] == Vec3(Position(t, 0), Position(t, 1), Position(t, 2)))
  {
    var u := Unpack(data);
    ParseLinesValid(SplitLines(data));
    forall t | t in u.hashindices
      ensures Positions(u, u.index)[u.hashindices[t]] == Vec3(Position(t, 0), Position(t, 1), Position(t, 2))
    {
      var i := u.hashindices[t];
      PositionsAt(u, u.index, i);
      assert StoredAt(u.verts, i, t);
    }
  }

  /** Only `v`, `vn`, `vt` and `f` lines change the loader's state. */
  lemma OtherLinesIgnored(p: Parse, line: string)
    requires !HasTag(Trim(line), "v") && !HasTag(Trim(line), "vn")
    requires !HasTag(Trim(line), "vt") && !HasTag(Trim(line), "f")
    ensures ParseLine(p, line) == p
  {
  }

  /** The four tags exclude each other: `v` must be followed by whitespace,
      so a `vn` or `vt` line is not a `v` line, and two-letter tags differ in
      their letters. */
  lemma TagsDistinct(t: string)
    ensures HasTag(t, "v") ==> !HasTag(t, "vn") && !HasTag(t, "vt") && !HasTag(t, "f")
    ensures HasTag(t, "vn") ==> !HasTag(t, "vt") && !HasTag(t, "f")
    ensures HasTag(t, "vt") ==> !HasTag(t, "f")
  {
    if |t| >= 2 {
      assert t[..2][0] == t[0] && t[..2][1] == t[1];
    }
    if |t| >= 1 {
      assert t[..1][0] == t[0];
    }
  }

  /** Each kind of line is exactly the line with that tag, so the order of
      the tests in `Classify` does not matter. */
  lemma ClassifyByTag(t: string)
    ensures Classify(t) == VertexLine <==> HasTag(t, "v")
    ensures Classify(t) == NormalLine <==> HasTag(t, "vn")
    ensures Classify(t) == TextureLine <==> HasTag(t, "vt")
    ensures Classify(t) == FaceLine <==> HasTag(t, "f")
    ensures Classify(t) == OtherLine <==> !HasTag(t, "v") && !HasTag(t, "vn") && !HasTag(t, "vt") && !HasTag(t, "f")
  {
    TagsDistinct(t);
  }

  /** `Shape_From_File`: the arrays the parsed mesh is appended to. */
  class ShapeFromFile {
    var positions: seq<Vec3>
    var normals: seq<Vec3>
    var texCoords: seq<Vec2>
    var indices: seq<nat>
    var ready: bool

    /** The shape before its file has arrived. */
    constructor ()
      ensures positions == [] && normals == [] && texCoords == [] && indices == [] && !ready
    {
      positions := [];
      normals := [];
      texCoords := [];
      indices := [];
      ready := false;
    }

    /** The face loop over the tokens of one `f` line. */
    static method UnpackFace(u0: Unpacked, elements: seq<string>, withTextures: bool) returns (u: Unpacked)
      ensures u == FaceFrom(u0, elements, 0, false, withTextures)
    {
      u := u0;
      var quad := false;
      var j := 0;
      while j < |elements|
        invariant j <= |elements|
        invariant j > 0 ==> elements[0] in u.hashindices
        invariant FaceFrom(u, elements, j, quad, withTextures) == FaceFrom(u0, elements, 0, false, withTextures)
        decreases |elements| - j + (if quad then 0 else 1)
      {
        FaceFromStep(u, elements, j, quad, withTextures);
        ghost var before := u;
        if j == 3 && !quad {
          j := 2;
          quad := true;
        }
        u := AddToken(u, elements[j], withTextures);
        if j == 3 && quad {
          u := u.(indices := u.indices + [u.hashindices[elements[0]]]);
        }
        assert u == Visit(before, elements, j, quad, withTextures);
        j := j + 1;
      }
    }

    /** The body of the line loop. */
    static method ParseLineInto(p0: Parse, raw: string) returns (p: Parse)
      ensures p == ParseLine(p0, raw)
    {
      p := p0;
      var line := Trim(raw);
      var elements := SplitWords(line)[1..];
      match Classify(line)
      case VertexLine =>
        p := p.(verts := p.verts + elements);
      case NormalLine =>
        p := p.(vertNormals := p.vertNormals + elements);
      case TextureLine =>
        p := p.(textures := p.textures + elements);
      case FaceLine =>
        var u := UnpackFace(p.unpacked, elements, |p.textures| > 0);
        p := p.(unpacked := u);
      case OtherLine =>
    }

    /** `parse_into_mesh`: every line is classified and processed in order;
        then one position, normal and texture coordinate per unpacked index
        is appended, and the emitted indices become the shape's indices. */
    method ParseIntoMesh(data: string)
      modifies this
      ensures Counted(Unpack(data))
      ensures positions == old(positions) + Positions(Unpack(data), Unpack(data).index)
      ensures normals == old(normals) + Normals(Unpack(data), Unpack(data).index)
      ensures texCoords == old(texCoords) + TexCoords(Unpack(data), Unpack(data).index)
      ensures indices == Unpack(data).indices
      ensures ready
    {
      var lines := SplitLines(data);
      var p := ParseText(lines);
      ParsedCounts(lines);
      Assemble(p.unpacked);
      indices := p.unpacked.indices;
      ready := true;
    }

    /** The loop over the lines of the file. */
    static method ParseText(lines: seq<string>) returns (p: Parse)
      ensures p == ParseLines(lines)
    {
      p := Start();
      var i := 0;
      while i < |lines|
        invariant i <= |lines|
        invariant p == ParseLines(lines[..i])
      {
        ParseLinesStep(lines, i);
        p := ParseLineInto(p, lines[i]);
        i := i + 1;
      }
      assert lines[..i] == lines;
    }

    /** One position, normal and texture coordinate per unpacked index. */
    method Assemble(u: Unpacked)
      requires Counted(u)
      modifies this
      ensures positions == old(positions) + Positions(u, u.index)
      ensures normals == old(normals) + Normals(u, u.index)
      ensures texCoords == old(texCoords) + TexCoords(u, u.index)
      ensures indices == old(indices) && ready == old(ready)
    {
      var j := 0;
      while j < |u.verts| / 3
        invariant j <= u.index
        invariant positions == old(positions) + Positions(u, j)
        invariant normals == old(normals) + Normals(u, j)
        invariant texCoords == old(texCoords) + TexCoords(u, j)
        invariant indices == old(indices) && ready == old(ready)
      {
        positions := positions + [Vec3(u.verts[3 * j], u.verts[3 * j + 1], u.verts[3 * j + 2])];
        normals := normals + [Vec3(u.norms[3 * j], u.norms[3 * j + 1], u.norms[3 * j + 2])];
        texCoords := texCoords + [Vec2(Lookup(u.textures, 2 * j), Lookup(u.textures, 2 * j + 1))];
        j := j + 1;
      }
    }
  }
}
