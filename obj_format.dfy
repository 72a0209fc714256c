/**
 * What NetRayTracer's ObjData and the raycaster prototype's ObjData share: the face and material
 * records, ParseFaceVertex and ParseFaceData, LoadMaterials, and the switch over a line's first
 * token that both LoadFile loops run. The two copies of each are the same code up to field names.
 */
module ObjFormat {
  import opened Errors
  import opened Text
  import V3 = Vector3

  /** ObjData.Triangle.Vertex: 1-based indices into the vertex, normal and texture coordinate lists, 0 when absent. */
  datatype FaceVertex = FaceVertex(Vertex: int, Normal: int, TexCoord: int)

  /**
   * ObjData.Triangle, one face of the file. The name fields and the group list are references that
   * stay null until LoadFile fills them in.
   */
  datatype Face = Face(
    Vert1: FaceVertex, Vert2: FaceVertex, Vert3: FaceVertex,
    ObjectName: Option<string>,
    GroupNames: Option<seq<string>>,
    SmoothingGroupName: Option<string>,
    Material: Option<string>)

  /** ObjData.Material, a struct read from a .mtl file. */
  datatype Material = Material(
    Name: Option<string>,
    Ambient: V3.Vec3, Diffuse: V3.Vec3, Specular: V3.Vec3,
    SpecularCoefficient: real,
    Transparency: real,
    AmbientTextureMap: Option<string>,
    DiffuseTextureMap: Option<string>,
    SpecularTextureMap: Option<string>,
    SpecularCoefficientMap: Option<string>,
    AlphaTextureMap: Option<string>,
    BumpMap: Option<string>,
    DisplacementMap: Option<string>)

  /** new Material(): null strings, zero vectors and zero scalars */
  const DefaultMaterial: Material :=
    Material(None, V3.Zero(), V3.Zero(), V3.Zero(), 0.0, 0.0, None, None, None, None, None, None, None)

  /** The index after one slash: absent ("") leaves 0. */
  function TexCoordPart(d: seq<string>): Result<int>
  {
    var d1 :- Token(d, 1);
    if d1 != "" then ParseInt(d1) else Ok(0)
  }

  /**
   * ParseFaceVertex(data): "v", "v/t", "v/t/n" or "v//n". The guards test the length of data, not
   * the number of pieces after the split.
   */
  function ParseFaceVertex(data: string): (r: Result<FaceVertex>)
    ensures r.Fail? ==> r.error in {Format, Overflow, IndexOutOfRange}
  {
    var d := Split(data, '/');
    var v :- ParseInt(d[0]);
    var t :- if |data| > 1 then TexCoordPart(d) else Ok(0);
    var n :- if |data| > 2 then (var d2 :- Token(d, 2); ParseInt(d2)) else Ok(0);
    Ok(FaceVertex(v, n, t))
  }

  /** ParseFaceData(tokens): tokens[1], tokens[2] and tokens[3] are the three vertices. */
  function ParseFaceData(tokens: seq<string>): Result<Face>
  {
    var t1 :- Token(tokens, 1);
    var v1 :- ParseFaceVertex(t1);
    var t2 :- Token(tokens, 2);
    var v2 :- ParseFaceVertex(t2);
    var t3 :- Token(tokens, 3);
    var v3 :- ParseFaceVertex(t3);
    Ok(Face(v1, v2, v3, None, None, None, None))
  }

  /** "a/b/c" is vertex a, texture coordinate b and normal c. */
  lemma FullFaceVertex(a: nat, b: nat, c: nat)
    requires a <= Int32Max && b <= Int32Max && c <= Int32Max
    ensures ParseFaceVertex(Show(a) + "/" + Show(b) + "/" + Show(c)) == Ok(FaceVertex(a, c, b))
  {
    var s := Show(a) + "/" + Show(b) + "/" + Show(c);
    SlashFree(a);
    SlashFree(b);
    SlashFree(c);
    SplitWithoutSeparator(Show(c), '/');
    SplitAtFirstSeparator(Show(b), '/', Show(c));
    assert Show(a) + "/" + Show(b) + "/" + Show(c) == Show(a) + ['/'] + (Show(b) + ['/'] + Show(c));
    SplitAtFirstSeparator(Show(a), '/', Show(b) + ['/'] + Show(c));
    var d := Split(s, '/');
    assert d == [Show(a), Show(b), Show(c)];
    ParseIntShow(a);
    ParseIntShow(b);
    ParseIntShow(c);
  }

  /** "a//c" leaves the texture coordinate 0. */
  lemma FaceVertexWithoutTexCoord(a: nat, c: nat)
    requires a <= Int32Max && c <= Int32Max
    ensures ParseFaceVertex(Show(a) + "//" + Show(c)) == Ok(FaceVertex(a, c, 0))
  {
    var s := Show(a) + "//" + Show(c);
    SlashFree(a);
    SlashFree(c);
    SplitWithoutSeparator(Show(c), '/');
    SplitAtFirstSeparator("", '/', Show(c));
    assert s == Show(a) + ['/'] + ("" + ['/'] + Show(c));
    SplitAtFirstSeparator(Show(a), '/', "" + ['/'] + Show(c));
    assert Split(s, '/') == [Show(a), "", Show(c)];
    ParseIntShow(a);
    ParseIntShow(c);
  }

  /** A lone single-digit index gives that vertex and nothing else. */
  lemma SingleDigitFaceVertex(a: nat)
    requires a < 10
    ensures ParseFaceVertex(Show(a)) == Ok(FaceVertex(a, 0, 0))
  {
    SlashFree(a);
    SplitWithoutSeparator(Show(a), '/');
    ParseIntShow(a);
  }

  /**
   * The length guard misfires: a lone index of two or more digits passes data.Length > 1 and reads
   * d[1], which does not exist.
   */
  lemma MultiDigitIndexOverruns(a: nat)
    requires 10 <= a <= Int32Max
    ensures ParseFaceVertex(Show(a)) == Fail(IndexOutOfRange)
  {
    SlashFree(a);
    SplitWithoutSeparator(Show(a), '/');
    ParseIntShow(a);
  }

  /** "a/b" is at least three characters long, so the second guard reads d[2], which does not exist. */
  lemma VertexAndTexCoordOverruns(a: nat, b: nat)
    requires a <= Int32Max && b <= Int32Max
    ensures ParseFaceVertex(Show(a) + "/" + Show(b)) == Fail(IndexOutOfRange)
  {
    var s := Show(a) + "/" + Show(b);
    SlashFree(a);
    SlashFree(b);
    SplitWithoutSeparator(Show(b), '/');
    SplitAtFirstSeparator(Show(a), '/', Show(b));
    assert Split(s, '/') == [Show(a), Show(b)];
    ParseIntShow(a);
    ParseIntShow(b);
  }

  lemma SlashFree(n: nat)
    ensures '/' !in Show(n)
  {
  }

  /** tokens[i] read as a float */
  function ParseRealAt(tokens: seq<string>, i: nat): Result<real>
  {
    var t :- Token(tokens, i);
    ParseFloat(t)
  }

  /** new Vector3(float.Parse(tokens[1]), float.Parse(tokens[2]), float.Parse(tokens[3])) */
  function ParseVectorAt(tokens: seq<string>): Result<V3.Vec3>
  {
    var x :- ParseRealAt(tokens, 1);
    var y :- ParseRealAt(tokens, 2);
    var z :- ParseRealAt(tokens, 3);
    Ok(V3.Vec3(x, y, z))
  }

  /** The .mtl directives that take a single path argument. */
  predicate IsMapDirective(d: string)
  {
    d in {"map_Ka", "map_Kd", "map_Ks", "map_Ns", "map_d", "disp", "map_bump", "bump"}
  }

  /**
   * What a line of a .mtl file can do to the list LoadMaterials returns: throw, append a new
   * material (true), or leave it as it is (false). Every other directive reads and parses its
   * arguments, so it throws on missing or malformed ones, but what it assigns goes nowhere.
   */
  function MaterialLine(tokens: seq<string>): Result<bool>
    requires |tokens| >= 1
  {
    var d := tokens[0];
    if d == "newmtl" then var _ :- Token(tokens, 1); Ok(true)
    else if d == "Ka" || d == "Kd" || d == "Ks" then var _ :- ParseVectorAt(tokens); Ok(false)
    else if d == "Ns" || d == "d" || d == "Tr" then var _ :- ParseRealAt(tokens, 1); Ok(false)
    else if IsMapDirective(d) then var _ :- Token(tokens, 1); Ok(false)
    else Ok(false)
  }

  /** The list LoadMaterials returns for a file of these lines. */
  function Materials(lines: seq<string>): Result<seq<Material>>
  {
    if |lines| == 0 then Ok([])
    else
      var before :- Materials(lines[..|lines| - 1]);
      var isNew :- MaterialLine(Split(lines[|lines| - 1], ' '));
      Ok(if isNew then before + [DefaultMaterial] else before)
  }

  /** The number of lines that start a material. */
  function NewMaterialCount(lines: seq<string>): nat
  {
    if |lines| == 0 then 0
    else NewMaterialCount(lines[..|lines| - 1]) + (if Split(lines[|lines| - 1], ' ')[0] == "newmtl" then 1 else 0)
  }

  /**
   * LoadMaterials(file). Material is a struct, so currentMaterial = materials.Last() takes a copy and
   * every later assignment changes only that copy: the list holds one default material per newmtl,
   * each with a null Name, and nothing the file says about Ka, d, Tr or the maps reaches it.
   */
  method LoadMaterials(file: string, files: map<string, seq<string>>) returns (r: Result<seq<Material>>)
    ensures file !in files ==> r == Fail(Argument)
    ensures file in files ==> r == Materials(files[file])
    ensures r.Ok? ==> forall m :: m in r.value ==> m == DefaultMaterial
  {
    if file !in files {
      return Fail(Argument);
    }
    var lines := files[file];
    var materials: seq<Material> := [];
    var currentMaterial := DefaultMaterial;
    var i := 0;
    while i < |lines|
      invariant 0 <= i <= |lines|
      invariant Materials(lines[..i]) == Ok(materials)
    {
      assert lines[..i + 1][..i] == lines[..i];
      MaterialsFailurePersists(lines, i + 1);
      var tokens := Split(lines[i], ' ');
      var d := tokens[0];
      if d == "newmtl" {
        materials := materials + [DefaultMaterial];
        currentMaterial := materials[|materials| - 1];
        var name :- Token(tokens, 1);
        currentMaterial := currentMaterial.(Name := Some(name));
      } else if d == "Ka" {
        var v :- ParseVectorAt(tokens);
        currentMaterial := currentMaterial.(Ambient := v);
      } else if d == "Kd" {
        var v :- ParseVectorAt(tokens);
        currentMaterial := currentMaterial.(Diffuse := v);
      } else if d == "Ks" {
        var v :- ParseVectorAt(tokens);
        currentMaterial := currentMaterial.(Specular := v);
      } else if d == "Ns" {
        var v :- ParseRealAt(tokens, 1);
        currentMaterial := currentMaterial.(SpecularCoefficient := v);
      } else if d == "d" {
        var v :- ParseRealAt(tokens, 1);
        currentMaterial := currentMaterial.(Transparency := 1.0 - v);
      } else if d == "Tr" {
        var v :- ParseRealAt(tokens, 1);
        currentMaterial := currentMaterial.(Transparency := v);
      } else if d == "map_Ka" {
        var p :- Token(tokens, 1);
        currentMaterial := currentMaterial.(AmbientTextureMap := Some(p));
      } else if d == "map_Kd" {
        var p :- Token(tokens, 1);
        currentMaterial := currentMaterial.(DiffuseTextureMap := Some(p));
      } else if d == "map_Ks" {
        var p :- Token(tokens, 1);
        currentMaterial := currentMaterial.(SpecularTextureMap := Some(p));
      } else if d == "map_Ns" {
        var p :- Token(tokens, 1);
        currentMaterial := currentMaterial.(SpecularCoefficientMap := Some(p));
      } else if d == "map_d" {
        var p :- Token(tokens, 1);
        currentMaterial := currentMaterial.(AlphaTextureMap := Some(p));
      } else if d == "disp" {
        var p :- Token(tokens, 1);
        currentMaterial := currentMaterial.(DisplacementMap := Some(p));
      } else if d == "map_bump" || d == "bump" {
        var p :- Token(tokens, 1);
        currentMaterial := currentMaterial.(BumpMap := Some(p));
      }
      i := i + 1;
    }
    assert lines[..|lines|] == lines;
    AllDefaults(lines);
    return Ok(materials);
  }

  /** Once a line throws, the lines after it are never read. */
  lemma {:induction false} MaterialsFailurePersists(lines: seq<string>, i: nat)
    requires i <= |lines|
    ensures Materials(lines[..i]).Fail? ==> Materials(lines) == Materials(lines[..i])
    decreases |lines| - i
  {
    if i < |lines| && Materials(lines[..i]).Fail? {
      assert lines[..i + 1][..i] == lines[..i];
      MaterialsFailurePersists(lines, i + 1);
    } else if i == |lines| {
      assert lines[..i] == lines;
    }
  }

  /** Every material in the list is the default struct, one per newmtl line. */
  lemma {:induction false} AllDefaults(lines: seq<string>)
    ensures Materials(lines).Ok? ==> forall m :: m in Materials(lines).value ==> m == DefaultMaterial
    ensures Materials(lines).Ok? ==> |Materials(lines).value| == NewMaterialCount(lines)
  {
    if |lines| > 0 {
      AllDefaults(lines[..|lines| - 1]);
    }
  }

  /**
   * The state LoadFile keeps while it reads a .obj file: the lists it fills and the current
   * object, groups, smoothing group and material, and the list of .mtl files to read afterwards.
   */
  datatype LoadState = LoadState(
    Vertices: seq<V3.Vec3>,
    Normals: seq<V3.Vec3>,
    TexCoords: seq<V3.Vec3>,
    Faces: seq<Face>,
    CurrentGroups: Option<seq<string>>,
    CurrentObject: string,
    CurrentSmoothingGroup: string,
    CurrentMaterial: string,
    MaterialFiles: Option<seq<string>>)

  /** The switch over tokens[0] in LoadFile's loop: one line's effect on the state. */
  function Directive(s: LoadState, tokens: seq<string>): Result<LoadState>
    requires |tokens| >= 1
  {
    var d := tokens[0];
    if d == "v" then
      var p :- ParseVectorAt(tokens);
      Ok(s.(Vertices := s.Vertices + [p]))
    else if d == "vn" then
      var p :- ParseVectorAt(tokens);
      Ok(s.(Normals := s.Normals + [p]))
    else if d == "vt" then
      var u :- ParseRealAt(tokens, 1);
      var v :- ParseRealAt(tokens, 2);
      var w :- if |tokens| > 3 then ParseRealAt(tokens, 3) else Ok(1.0);
      Ok(s.(TexCoords := s.TexCoords + [V3.Vec3(u, v, w)]))
    else if d == "f" then
      if |tokens| > 4 then Fail(Format)
      else
        var f :- ParseFaceData(tokens);
        Ok(s.(Faces := s.Faces + [Stamped(f, s)]))
    else if d == "mtllib" then
      var files := if s.MaterialFiles.None? then [] else s.MaterialFiles.value;
      Ok(s.(MaterialFiles := Some(files + AllButFirstReversed(tokens))))
    else if d == "usemtl" then
      var name :- Token(tokens, 1);
      Ok(s.(CurrentMaterial := name))
    else if d == "o" then
      var name :- Token(tokens, 1);
      Ok(s.(CurrentObject := name))
    else if d == "g" then
      Ok(s.(CurrentGroups := Some(AllButFirstReversed(tokens))))
    else Ok(s)
  }

  /**
   * The cases of that switch which touch no list of ObjData, mtllib, usemtl, o, g and every other
   * first token, as both LoadFile loops run them on their state variables.
   */
  method ReadStateDirective(tokens: seq<string>, s: LoadState) returns (r: Result<LoadState>)
    requires |tokens| >= 1 && tokens[0] != "v" && tokens[0] != "vn" && tokens[0] != "vt" && tokens[0] != "f"
    ensures r == Directive(s, tokens)
    ensures r.Ok? ==> r.value.Vertices == s.Vertices && r.value.Normals == s.Normals &&
                      r.value.TexCoords == s.TexCoords && r.value.Faces == s.Faces
    ensures r.Ok? ==> r.value.CurrentSmoothingGroup == s.CurrentSmoothingGroup
  {
    var d := tokens[0];
    if d == "mtllib" {
      var materialFiles := s.MaterialFiles;
      if materialFiles.None? {
        materialFiles := Some([]);
      }
      materialFiles := Some(materialFiles.value + AllButFirstReversed(tokens));
      return Ok(s.(MaterialFiles := materialFiles));
    } else if d == "usemtl" {
      var name :- Token(tokens, 1);
      return Ok(s.(CurrentMaterial := name));
    } else if d == "o" {
      var name :- Token(tokens, 1);
      return Ok(s.(CurrentObject := name));
    } else if d == "g" {
      return Ok(s.(CurrentGroups := Some(AllButFirstReversed(tokens))));
    }
    return Ok(s);
  }

  /** A parsed face with the object, groups, smoothing group and material current in s. */
  function Stamped(f: Face, s: LoadState): Face
  {
    f.(GroupNames := s.CurrentGroups, ObjectName := Some(s.CurrentObject),
       SmoothingGroupName := Some(s.CurrentSmoothingGroup), Material := Some(s.CurrentMaterial))
  }

  /** A v or vn line appends exactly one vector to its list and changes nothing else. */
  lemma VertexLineAppendsOne(s: LoadState, tokens: seq<string>)
    requires |tokens| >= 1 && (tokens[0] == "v" || tokens[0] == "vn")
    ensures Directive(s, tokens).Ok? <==> ParseVectorAt(tokens).Ok?
    ensures tokens[0] == "v" && ParseVectorAt(tokens).Ok? ==>
              Directive(s, tokens) == Ok(s.(Vertices := s.Vertices + [ParseVectorAt(tokens).value]))
    ensures tokens[0] == "vn" && ParseVectorAt(tokens).Ok? ==>
              Directive(s, tokens) == Ok(s.(Normals := s.Normals + [ParseVectorAt(tokens).value]))
  {
  }

  /** A vt line with only u and v stores w = 1. */
  lemma TexCoordDefaultsW(s: LoadState, tokens: seq<string>)
    requires |tokens| == 3 && tokens[0] == "vt"
    requires ParseFloat(tokens[1]).Ok? && ParseFloat(tokens[2]).Ok?
    ensures Directive(s, tokens) ==
            Ok(s.(TexCoords := s.TexCoords + [V3.Vec3(ParseFloat(tokens[1]).value, ParseFloat(tokens[2]).value, 1.0)]))
  {
  }

  /**
   * An f line with more than three vertices throws FormatException. Otherwise it appends exactly one
   * face, stamped with the state current when it was read.
   */
  lemma FaceLine(s: LoadState, tokens: seq<string>)
    requires |tokens| >= 1 && tokens[0] == "f"
    ensures |tokens| > 4 ==> Directive(s, tokens) == Fail(Format)
    ensures Directive(s, tokens).Ok? ==>
              var r := Directive(s, tokens).value;
              |r.Faces| == |s.Faces| + 1 && r.Faces[..|s.Faces|] == s.Faces && r == s.(Faces := r.Faces) &&
              r.Faces[|s.Faces|].ObjectName == Some(s.CurrentObject) &&
              r.Faces[|s.Faces|].GroupNames == s.CurrentGroups &&
              r.Faces[|s.Faces|].SmoothingGroupName == Some(s.CurrentSmoothingGroup) &&
              r.Faces[|s.Faces|].Material == Some(s.CurrentMaterial)
  {
    if Directive(s, tokens).Ok? {
      var r := Directive(s, tokens).value;
      assert r.Faces[..|s.Faces|] == s.Faces;
    }
  }

  /** g sets the groups to the names after it in reverse order; mtllib appends its names the same way. */
  lemma GroupAndLibraryLines(s: LoadState, tokens: seq<string>)
    requires |tokens| >= 1
    ensures tokens[0] == "g" ==> Directive(s, tokens) == Ok(s.(CurrentGroups := Some(Reverse(tokens[1..]))))
    ensures tokens[0] == "mtllib" ==>
              var earlier := if s.MaterialFiles.None? then [] else s.MaterialFiles.value;
              Directive(s, tokens) == Ok(s.(MaterialFiles := Some(earlier + Reverse(tokens[1..]))))
  {
  }

  /** usemtl and o name the current material and object; a missing name throws. */
  lemma NamingLines(s: LoadState, tokens: seq<string>)
    requires |tokens| >= 1 && (tokens[0] == "usemtl" || tokens[0] == "o")
    ensures |tokens| == 1 ==> Directive(s, tokens) == Fail(IndexOutOfRange)
    ensures |tokens| > 1 && tokens[0] == "usemtl" ==> Directive(s, tokens) == Ok(s.(CurrentMaterial := tokens[1]))
    ensures |tokens| > 1 && tokens[0] == "o" ==> Directive(s, tokens) == Ok(s.(CurrentObject := tokens[1]))
  {
  }

  /** No directive sets the smoothing group: s lines and every other unknown directive are ignored. */
  lemma SmoothingGroupUnchanged(s: LoadState, tokens: seq<string>)
    requires |tokens| >= 1
    ensures Directive(s, tokens).Ok? ==> Directive(s, tokens).value.CurrentSmoothingGroup == s.CurrentSmoothingGroup
    ensures tokens[0] !in {"v", "vn", "vt", "f", "mtllib", "usemtl", "o", "g"} ==> Directive(s, tokens) == Ok(s)
  {
  }

  /** The lists only grow: a line never removes what earlier lines added. */
  lemma ListsOnlyGrow(s: LoadState, tokens: seq<string>)
    requires |tokens| >= 1 && Directive(s, tokens).Ok?
    ensures var r := Directive(s, tokens).value;
            s.Vertices <= r.Vertices && s.Normals <= r.Normals && s.TexCoords <= r.TexCoords && s.Faces <= r.Faces
  {
    var r := Directive(s, tokens).value;
    var d := tokens[0];
    if d == "v" || d == "vn" {
      VertexLineAppendsOne(s, tokens);
    } else if d == "vt" {
      TexCoordLine(s, tokens);
      assert s.TexCoords == r.TexCoords[..|s.TexCoords|];
    } else if d == "f" {
      FaceLine(s, tokens);
    } else {
      StateLineKeepsLists(s, tokens);
    }
  }

  /** A vt line appends exactly one texture coordinate and changes nothing else. */
  lemma TexCoordLine(s: LoadState, tokens: seq<string>)
    requires |tokens| >= 1 && tokens[0] == "vt" && Directive(s, tokens).Ok?
    ensures var r := Directive(s, tokens).value;
            |r.TexCoords| == |s.TexCoords| + 1 && r.TexCoords[..|s.TexCoords|] == s.TexCoords &&
            r == s.(TexCoords := r.TexCoords)
  {
    var r := Directive(s, tokens).value;
    assert r.TexCoords[..|s.TexCoords|] == s.TexCoords;
  }

  /** mtllib, usemtl, o, g and every unknown directive leave the four lists as they were. */
  lemma StateLineKeepsLists(s: LoadState, tokens: seq<string>)
    requires |tokens| >= 1 && tokens[0] != "v" && tokens[0] != "vn" && tokens[0] != "vt" && tokens[0] != "f"
    requires Directive(s, tokens).Ok?
    ensures var r := Directive(s, tokens).value;
            r.Vertices == s.Vertices && r.Normals == s.Normals && r.TexCoords == s.TexCoords && r.Faces == s.Faces
  {
    var d := tokens[0];
    if d == "usemtl" || d == "o" {
      NamingLines(s, tokens);
    } else {
      GroupAndLibraryLines(s, tokens);
      SmoothingGroupUnchanged(s, tokens);
    }
  }

  /** Only an f line adds faces, and only an mtllib line touches the list of material files, which it never leaves null. */
  lemma DirectiveFrame(s: LoadState, tokens: seq<string>)
    requires |tokens| >= 1 && Directive(s, tokens).Ok?
    ensures tokens[0] != "f" ==> Directive(s, tokens).value.Faces == s.Faces
    ensures tokens[0] != "mtllib" ==> Directive(s, tokens).value.MaterialFiles == s.MaterialFiles
    ensures tokens[0] == "mtllib" ==> Directive(s, tokens).value.MaterialFiles.Some?
  {
    var d := tokens[0];
    if d == "v" || d == "vn" {
      VertexLineAppendsOne(s, tokens);
    } else if d == "f" || d == "mtllib" {
    } else if d == "usemtl" || d == "o" {
      NamingLines(s, tokens);
    } else if d != "vt" {
      GroupAndLibraryLines(s, tokens);
      SmoothingGroupUnchanged(s, tokens);
    }
  }

  /** The state after reading lines one at a time from init, stopping at the first line that throws. */
  function Fold(step: (LoadState, string) -> Result<LoadState>, init: LoadState, lines: seq<string>): Result<LoadState>
  {
    if |lines| == 0 then Ok(init)
    else
      var s :- Fold(step, init, lines[..|lines| - 1]);
      step(s, lines[|lines| - 1])
  }

  /** Reading one more line. */
  lemma FoldStep(step: (LoadState, string) -> Result<LoadState>, init: LoadState, lines: seq<string>, i: nat)
    requires i < |lines|
    ensures Fold(step, init, lines[..i + 1]) ==
            if Fold(step, init, lines[..i]).Fail? then Fold(step, init, lines[..i])
            else step(Fold(step, init, lines[..i]).value, lines[i])
  {
    assert lines[..i + 1][..i] == lines[..i];
  }

  /** Once a line throws, the lines after it are never read. */
  lemma {:induction false} FoldFailurePersists(step: (LoadState, string) -> Result<LoadState>, init: LoadState, lines: seq<string>, i: nat)
    requires i <= |lines|
    ensures Fold(step, init, lines[..i]).Fail? ==> Fold(step, init, lines) == Fold(step, init, lines[..i])
    decreases |lines| - i
  {
    if i < |lines| && Fold(step, init, lines[..i]).Fail? {
      FoldStep(step, init, lines, i);
      FoldFailurePersists(step, init, lines, i + 1);
    } else if i == |lines| {
      assert lines[..i] == lines;
    }
  }
}
