/**
 * The raycaster prototype's ObjData.LoadFile. Its loop runs the same switch as NetRayTracer's,
 * but it splits lines without removing empty entries, starts with a null list of material files
 * and never creates its own material list.
 */
module ProtoObjLoader {
  import opened Errors
  import opened Text
  import V3 = Vector3
  import opened ObjFormat

  /** ObjData: private lists; the constructor leaves _materials null. */
  class ObjData {
    var vertices: seq<V3.Vec3>
    var normals: seq<V3.Vec3>
    var texCoords: seq<V3.Vec3>
    var faces: seq<Face>
    var materials: Option<seq<Material>>

    /** ObjData(): four empty lists and a null material list */
    constructor ()
      ensures vertices == [] && normals == [] && texCoords == [] && faces == [] && materials == None
    {
      vertices, normals, texCoords, faces, materials := [], [], [], [], None;
    }

    /** The lists hold what l says. */
    predicate Holds(l: Loaded)
      reads this
    {
      vertices == l.Vertices && normals == l.Normals && texCoords == l.TexCoords &&
      faces == l.Faces && materials == l.Materials
    }
  }

  /** The contents of a loaded ObjData. */
  datatype Loaded = Loaded(
    Vertices: seq<V3.Vec3>, Normals: seq<V3.Vec3>, TexCoords: seq<V3.Vec3>,
    Faces: seq<Face>, Materials: Option<seq<Material>>)

  /** The state before the first line: the list of material files is null. */
  const Initial: LoadState := LoadState([], [], [], [], None, "", "", "", None)

  /** One line of the loop: line.Split(' ') always has a first token, possibly empty. */
  function LineStep(s: LoadState, line: string): Result<LoadState>
  {
    Directive(s, Split(line, ' '))
  }

  /** The state after the loop over these lines. */
  function ReadLines(lines: seq<string>): Result<LoadState>
  {
    Fold(LineStep, Initial, lines)
  }

  /**
   * What LoadFile(filepath) returns, or the exception it throws. The foreach over materialFiles
   * throws when no mtllib line created the list. Its first pass calls LoadMaterials and then
   * AddRange on the null _materials, so a list that names any file throws too.
   */
  function Load(filepath: string, files: map<string, seq<string>>): Result<Loaded>
  {
    if filepath !in files then Fail(Argument)
    else
      var s :- ReadLines(files[filepath]);
      if s.MaterialFiles.None? then Fail(NullReference)
      else if |s.MaterialFiles.value| == 0 then Ok(Loaded(s.Vertices, s.Normals, s.TexCoords, s.Faces, None))
      else
        var first := s.MaterialFiles.value[0];
        if first !in files then Fail(Argument)
        else
          var _ :- Materials(files[first]);
          Fail(NullReference)
  }

  /** ObjData.LoadFile(filepath) */
  method LoadFile(filepath: string, files: map<string, seq<string>>) returns (r: Result<ObjData>)
    ensures r.Fail? <==> Load(filepath, files).Fail?
    ensures r.Fail? ==> r.error == Load(filepath, files).error
    ensures r.Ok? ==> fresh(r.value) && r.value.Holds(Load(filepath, files).value)
  {
    var data := new ObjData();
    if filepath !in files {
      return Fail(Argument);
    }
    var s :- ReadObjLines(data, files[filepath]);

    // foreach (var m in materialFiles)
    if s.MaterialFiles.None? {
      return Fail(NullReference);
    }
    var names := s.MaterialFiles.value;
    if |names| > 0 {
      // the first pass: LoadMaterials(m), then data._materials.AddRange on a null list
      var loaded :- LoadMaterials(names[0], files);
      return Fail(NullReference);
    }
    return Ok(data);
  }

  /**
   * The read loop of LoadFile, with its state variables: it fills data's vertex, normal, texture
   * coordinate and face lists and returns the state it ends in.
   */
  method ReadObjLines(data: ObjData, lines: seq<string>) returns (r: Result<LoadState>)
    requires data.vertices == [] && data.normals == [] && data.texCoords == [] && data.faces == []
    modifies data
    ensures r == ReadLines(lines)
    ensures r.Ok? ==> data.vertices == r.value.Vertices && data.normals == r.value.Normals &&
                      data.texCoords == r.value.TexCoords && data.faces == r.value.Faces
    ensures data.materials == old(data.materials)
  {
    var currentGroups: Option<seq<string>> := None;
    var currentObject := "";
    var currentSmoothingGroup := "";
    var currentMaterial := "";
    var materialFiles: Option<seq<string>> := None;

    var i := 0;
    while i < |lines|
      invariant 0 <= i <= |lines|
      invariant ReadLines(lines[..i]) ==
                Ok(LoadState(data.vertices, data.normals, data.texCoords, data.faces, currentGroups,
                             currentObject, currentSmoothingGroup, currentMaterial, materialFiles))
      invariant data.materials == old(data.materials)
    {
      FoldStep(LineStep, Initial, lines, i);
      FoldFailurePersists(LineStep, Initial, lines, i + 1);
      var tokens := Split(lines[i], ' ');
      var before := LoadState(data.vertices, data.normals, data.texCoords, data.faces,
                              currentGroups, currentObject, currentSmoothingGroup, currentMaterial, materialFiles);
      var next :- ReadDirective(data, tokens, before);
      currentGroups, currentObject, currentMaterial, materialFiles :=
        next.CurrentGroups, next.CurrentObject, next.CurrentMaterial, next.MaterialFiles;
      i := i + 1;
    }
    assert lines[..|lines|] == lines;
    return Ok(LoadState(data.vertices, data.normals, data.texCoords, data.faces, currentGroups,
                        currentObject, currentSmoothingGroup, currentMaterial, materialFiles));
  }

  /**
   * The switch over tokens[0], for a line read in state s: it adds to data's lists in place and
   * returns the state with the new lists and the updated state variables.
   */
  method ReadDirective(data: ObjData, tokens: seq<string>, s: LoadState) returns (r: Result<LoadState>)
    requires |tokens| >= 1
    requires data.vertices == s.Vertices && data.normals == s.Normals
    requires data.texCoords == s.TexCoords && data.faces == s.Faces
    modifies data
    ensures r == Directive(s, tokens)
    ensures r.Ok? ==> data.vertices == r.value.Vertices && data.normals == r.value.Normals &&
                      data.texCoords == r.value.TexCoords && data.faces == r.value.Faces
    ensures r.Ok? ==> r.value.CurrentSmoothingGroup == s.CurrentSmoothingGroup
    ensures data.materials == old(data.materials)
  {
    var d := tokens[0];
    if d == "v" {
      var p :- ParseVectorAt(tokens);
      data.vertices := data.vertices + [p];
      return Ok(s.(Vertices := data.vertices));
    } else if d == "vn" {
      var p :- ParseVectorAt(tokens);
      data.normals := data.normals + [p];
      return Ok(s.(Normals := data.normals));
    } else if d == "vt" {
      var u :- ParseRealAt(tokens, 1);
      var v :- ParseRealAt(tokens, 2);
      var w := 1.0;
      if |tokens| > 3 {
        w :- ParseRealAt(tokens, 3);
      }
      data.texCoords := data.texCoords + [V3.Vec3(u, v, w)];
      return Ok(s.(TexCoords := data.texCoords));
    } else if d == "f" {
      if |tokens| > 4 {
        return Fail(Format);
      }
      var t :- ParseFaceData(tokens);
      t := t.(GroupNames := s.CurrentGroups, ObjectName := Some(s.CurrentObject),
              SmoothingGroupName := Some(s.CurrentSmoothingGroup), Material := Some(s.CurrentMaterial));
      data.faces := data.faces + [t];
      return Ok(s.(Faces := data.faces));
    }
    r := ReadStateDirective(tokens, s);
  }

  /** A line whose first token is mtllib. */
  predicate NamesLibraries(line: string)
  {
    Split(line, ' ')[0] == "mtllib"
  }

  /** An empty line, and one that starts with a space, has an empty first token and is ignored. */
  lemma IndentedLineIgnored(s: LoadState, rest: string)
    ensures LineStep(s, "") == Ok(s)
    ensures LineStep(s, [' '] + rest) == Ok(s)
  {
    SplitAtFirstSeparator("", ' ', rest);
    assert "" + [' '] + rest == [' '] + rest;
  }

  /** Two spaces after v leave an empty token where the x coordinate should be, and float.Parse("") throws. */
  lemma DoubledSpaceBreaksVertex(s: LoadState, rest: string)
    ensures LineStep(s, "v  " + rest) == Fail(Format)
  {
    SplitAtFirstSeparator("", ' ', rest);
    SplitAtFirstSeparator("v", ' ', [' '] + rest);
    assert "v" + [' '] + ([' '] + rest) == "v  " + rest;
    assert "" + [' '] + rest == [' '] + rest;
    assert Split("v  " + rest, ' ')[1] == "";
    assert ParseFloat("") == Fail(Format);
  }

  /** After one line the list of material files is null exactly when it was and the line is not an mtllib line. */
  lemma LineKeepsNullLibraries(s: LoadState, line: string)
    requires LineStep(s, line).Ok?
    ensures LineStep(s, line).value.MaterialFiles.None? <==> s.MaterialFiles.None? && !NamesLibraries(line)
  {
    DirectiveFrame(s, Split(line, ' '));
  }

  /** The list of material files stays null until the first mtllib line. */
  lemma {:induction false} LibraryListNullWithoutMtllib(lines: seq<string>)
    ensures ReadLines(lines).Ok? ==>
              (ReadLines(lines).value.MaterialFiles.None? <==> forall j :: 0 <= j < |lines| ==> !NamesLibraries(lines[j]))
  {
    if |lines| > 0 && ReadLines(lines).Ok? {
      var init, last := lines[..|lines| - 1], lines[|lines| - 1];
      var s := ReadLines(init).value;
      LibraryListNullWithoutMtllib(init);
      LineKeepsNullLibraries(s, last);
      assert lines == init + [last];
    }
  }

  /** Once an mtllib line names a file, the list of material files is not empty. */
  lemma {:induction false} NamedLibraryStays(lines: seq<string>, j: nat)
    requires j < |lines| && NamesLibraries(lines[j]) && |Split(lines[j], ' ')| > 1
    ensures ReadLines(lines).Ok? ==>
              ReadLines(lines).value.MaterialFiles.Some? && |ReadLines(lines).value.MaterialFiles.value| > 0
  {
    var init := lines[..|lines| - 1];
    var prev := ReadLines(init);
    var tokens := Split(lines[|lines| - 1], ' ');
    if j < |lines| - 1 {
      NamedLibraryStays(init, j);
    }
    if prev.Ok? && Directive(prev.value, tokens).Ok? {
      DirectiveFrame(prev.value, tokens);
      GroupAndLibraryLines(prev.value, tokens);
    }
  }

  /**
   * LoadFile returns only for a file with at least one mtllib line where no mtllib line names a
   * file; and then _materials is still null.
   */
  lemma ReturnsOnlyWithEmptyLibraries(filepath: string, files: map<string, seq<string>>)
    ensures Load(filepath, files).Ok? ==> filepath in files
    ensures Load(filepath, files).Ok? ==>
              var lines := files[filepath];
              (exists j :: 0 <= j < |lines| && NamesLibraries(lines[j])) &&
              (forall j :: 0 <= j < |lines| && NamesLibraries(lines[j]) ==> |Split(lines[j], ' ')| == 1)
    ensures Load(filepath, files).Ok? ==> Load(filepath, files).value.Materials.None?
  {
    if Load(filepath, files).Ok? {
      var lines := files[filepath];
      LibraryListNullWithoutMtllib(lines);
      forall j | 0 <= j < |lines| && NamesLibraries(lines[j])
        ensures |Split(lines[j], ' ')| == 1
      {
        if |Split(lines[j], ' ')| > 1 {
          NamedLibraryStays(lines, j);
        }
      }
    }
  }

  /** A file with no mtllib line throws once its lines are read, whatever they hold. */
  lemma NoLibraryThrows(filepath: string, files: map<string, seq<string>>)
    requires filepath in files && ReadLines(files[filepath]).Ok?
    requires forall j :: 0 <= j < |files[filepath]| ==> !NamesLibraries(files[filepath][j])
    ensures Load(filepath, files) == Fail(NullReference)
  {
    LibraryListNullWithoutMtllib(files[filepath]);
  }
}
