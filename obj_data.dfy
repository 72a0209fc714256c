/**
 * NetRayTracer's ObjData: the lists LoadFile fills from a .obj file and from the .mtl files it
 * names. The file system is a map from paths to the lines of the file at that path.
 */
module ObjLoader {
  import opened Errors
  import opened Text
  import V3 = Vector3
  import opened ObjFormat

  /** ObjData: five lists, public fields that LoadFile fills in place. */
  class ObjData {
    var vertices: seq<V3.Vec3>
    var normals: seq<V3.Vec3>
    var texCoords: seq<V3.Vec3>
    var faces: seq<Face>
    var materials: seq<Material>

    /** ObjData(): five empty lists */
    constructor ()
      ensures vertices == [] && normals == [] && texCoords == [] && faces == [] && materials == []
    {
      vertices, normals, texCoords, faces, materials := [], [], [], [], [];
    }

    /** The lists hold what l says. */
    predicate Holds(l: Loaded)
      reads this
    {
      vertices == l.Vertices && normals == l.Normals && texCoords == l.TexCoords &&
      faces == l.Faces && materials == l.Materials
    }
  }

  /** The contents of a loaded ObjData. */
  datatype Loaded = Loaded(
    Vertices: seq<V3.Vec3>, Normals: seq<V3.Vec3>, TexCoords: seq<V3.Vec3>,
    Faces: seq<Face>, Materials: seq<Material>)

  /** The state before the first line: no groups yet, empty names, an empty list of material files. */
  const Initial: LoadState := LoadState([], [], [], [], None, "", "", "", Some([]))

  /** One line of the loop: split on spaces with empty entries removed, blank lines skipped. */
  function LineStep(s: LoadState, line: string): Result<LoadState>
  {
    var tokens := SplitRemoveEmpty(line, ' ');
    if |tokens| == 0 then Ok(s) else Directive(s, tokens)
  }

  /** The state after the loop over these lines. */
  function ReadLines(lines: seq<string>): Result<LoadState>
  {
    Fold(LineStep, Initial, lines)
  }

  /** LoadMaterials(file): it throws ArgumentException first when the file does not exist. */
  function MaterialFile(file: string, files: map<string, seq<string>>): Result<seq<Material>>
  {
    if file !in files then Fail(Argument) else Materials(files[file])
  }

  /** The materials of these .mtl files, in order, each file's list appended after the one before. */
  function MaterialsOfFiles(names: seq<string>, files: map<string, seq<string>>): Result<seq<Material>>
  {
    if |names| == 0 then Ok([])
    else
      var before :- MaterialsOfFiles(names[..|names| - 1], files);
      var ms :- MaterialFile(names[|names| - 1], files);
      Ok(before + ms)
  }

  /** What LoadFile(filepath) returns, or the exception it throws. */
  function Load(filepath: string, files: map<string, seq<string>>): Result<Loaded>
  {
    if filepath !in files then Fail(Argument)
    else
      var s :- ReadLines(files[filepath]);
      // foreach over a null list would throw; the list is created up front and never set to null
      if s.MaterialFiles.None? then Fail(NullReference)
      else
        var ms :- MaterialsOfFiles(s.MaterialFiles.value, files);
        Ok(Loaded(s.Vertices, s.Normals, s.TexCoords, s.Faces, ms))
  }

  /** ObjData.LoadFile(filepath) */
  method LoadFile(filepath: string, files: map<string, seq<string>>) returns (r: Result<ObjData>)
    ensures r.Fail? <==> Load(filepath, files).Fail?
    ensures r.Fail? ==> r.error == Load(filepath, files).error
    ensures r.Ok? ==> fresh(r.value) && r.value.Holds(Load(filepath, files).value)
  {
    var data := new ObjData();
    if filepath !in files {
      return Fail(Argument);
    }
    var s :- ReadObjLines(data, files[filepath]);
    ReadLinesKeepsMaterialFiles(files[filepath]);
    LoadAfterReading(filepath, files, s);

    var _ :- LoadMaterialFiles(data, s.MaterialFiles.value, files);
    return Ok(data);
  }

  /** The foreach over materialFiles: each file's materials are added to data's list in turn. */
  method LoadMaterialFiles(data: ObjData, names: seq<string>, files: map<string, seq<string>>)
    returns (r: Result<seq<Material>>)
    requires data.materials == []
    modifies data
    ensures r == MaterialsOfFiles(names, files)
    ensures r.Ok? ==> data.materials == r.value
    ensures data.vertices == old(data.vertices) && data.normals == old(data.normals)
    ensures data.texCoords == old(data.texCoords) && data.faces == old(data.faces)
  {
    var k := 0;
    while k < |names|
      invariant 0 <= k <= |names|
      invariant MaterialsOfFiles(names[..k], files) == Ok(data.materials)
      invariant data.vertices == old(data.vertices) && data.normals == old(data.normals)
      invariant data.texCoords == old(data.texCoords) && data.faces == old(data.faces)
    {
      assert names[..k + 1][..k] == names[..k];
      MaterialsOfFilesFailurePersists(names, files, k + 1);
      var loaded :- LoadMaterials(names[k], files);
      data.materials := data.materials + loaded;
      k := k + 1;
    }
    assert names[..|names|] == names;
    return Ok(data.materials);
  }

  /** Once the lines are read, the result is that of the material files. */
  lemma LoadAfterReading(filepath: string, files: map<string, seq<string>>, s: LoadState)
    requires filepath in files && ReadLines(files[filepath]) == Ok(s) && s.MaterialFiles.Some?
    ensures MaterialsOfFiles(s.MaterialFiles.value, files).Fail? ==>
              Load(filepath, files) == Fail(MaterialsOfFiles(s.MaterialFiles.value, files).error)
    ensures MaterialsOfFiles(s.MaterialFiles.value, files).Ok? ==>
              Load(filepath, files) == Ok(Loaded(s.Vertices, s.Normals, s.TexCoords, s.Faces,
                                                 MaterialsOfFiles(s.MaterialFiles.value, files).value))
  {
  }

  /**
   * The read loop of LoadFile, with its state variables: it fills data's vertex, normal, texture
   * coordinate and face lists and returns the state it ends in.
   */
  method ReadObjLines(data: ObjData, lines: seq<string>) returns (r: Result<LoadState>)
    requires data.vertices == [] && data.normals == [] && data.texCoords == [] && data.faces == []
    modifies data
    ensures r == ReadLines(lines)
    ensures r.Ok? ==> data.vertices == r.value.Vertices && data.normals == r.value.Normals &&
                      data.texCoords == r.value.TexCoords && data.faces == r.value.Faces
    ensures data.materials == old(data.materials)
  {
    var currentGroups: Option<seq<string>> := None;
    var currentObject := "";
    var currentSmoothingGroup := "";
    var currentMaterial := "";
    var materialFiles: Option<seq<string>> := Some([]);

    var i := 0;
    while i < |lines|
      invariant 0 <= i <= |lines|
      invariant ReadLines(lines[..i]) ==
                Ok(LoadState(data.vertices, data.normals, data.texCoords, data.faces, currentGroups,
                             currentObject, currentSmoothingGroup, currentMaterial, materialFiles))
      invariant data.materials == old(data.materials)
    {
      FoldStep(LineStep, Initial, lines, i);
      FoldFailurePersists(LineStep, Initial, lines, i + 1);
      var tokens := SplitRemoveEmpty(lines[i], ' ');
      if |tokens| > 0 {
        var before := LoadState(data.vertices, data.normals, data.texCoords, data.faces,
                                currentGroups, currentObject, currentSmoothingGroup, currentMaterial, materialFiles);
        var next :- ReadDirective(data, tokens, before);
        currentGroups, currentObject, currentMaterial, materialFiles :=
          next.CurrentGroups, next.CurrentObject, next.CurrentMaterial, next.MaterialFiles;
      }
      i := i + 1;
    }
    assert lines[..|lines|] == lines;
    return Ok(LoadState(data.vertices, data.normals, data.texCoords, data.faces, currentGroups,
                        currentObject, currentSmoothingGroup, currentMaterial, materialFiles));
  }

  /**
   * The switch over tokens[0], for a line read in state s: it adds to data's lists in place and
   * returns the state with the new lists and the updated state variables.
   */
  method ReadDirective(data: ObjData, tokens: seq<string>, s: LoadState) returns (r: Result<LoadState>)
    requires |tokens| >= 1
    requires data.vertices == s.Vertices && data.normals == s.Normals
    requires data.texCoords == s.TexCoords && data.faces == s.Faces
    modifies data
    ensures r == Directive(s, tokens)
    ensures r.Ok? ==> data.vertices == r.value.Vertices && data.normals == r.value.Normals &&
                      data.texCoords == r.value.TexCoords && data.faces == r.value.Faces
    ensures r.Ok? ==> r.value.CurrentSmoothingGroup == s.CurrentSmoothingGroup
    ensures data.materials == old(data.materials)
  {
    var d := tokens[0];
    if d == "v" {
      var p :- ParseVectorAt(tokens);
      data.vertices := data.vertices + [p];
      return Ok(s.(Vertices := data.vertices));
    } else if d == "vn" {
      var p :- ParseVectorAt(tokens);
      data.normals := data.normals + [p];
      return Ok(s.(Normals := data.normals));
    } else if d == "vt" {
      var u :- ParseRealAt(tokens, 1);
      var v :- ParseRealAt(tokens, 2);
      var w := 1.0;
      if |tokens| > 3 {
        w :- ParseRealAt(tokens, 3);
      }
      data.texCoords := data.texCoords + [V3.Vec3(u, v, w)];
      return Ok(s.(TexCoords := data.texCoords));
    } else if d == "f" {
      if |tokens| > 4 {
        return Fail(Format);
      }
      var t :- ParseFaceData(tokens);
      t := t.(GroupNames := s.CurrentGroups, ObjectName := Some(s.CurrentObject),
              SmoothingGroupName := Some(s.CurrentSmoothingGroup), Material := Some(s.CurrentMaterial));
      data.faces := data.faces + [t];
      return Ok(s.(Faces := data.faces));
    }
    r := ReadStateDirective(tokens, s);
  }

  /** materialFiles is never null after the loop. */
  lemma {:induction false} ReadLinesKeepsMaterialFiles(lines: seq<string>)
    ensures ReadLines(lines).Ok? ==> ReadLines(lines).value.MaterialFiles.Some?
  {
    if |lines| > 0 {
      var prev := ReadLines(lines[..|lines| - 1]);
      var tokens := SplitRemoveEmpty(lines[|lines| - 1], ' ');
      ReadLinesKeepsMaterialFiles(lines[..|lines| - 1]);
      if prev.Ok? && |tokens| > 0 && Directive(prev.value, tokens).Ok? {
        DirectiveFrame(prev.value, tokens);
      }
    }
  }

  /** A line that is empty or holds only spaces changes nothing. */
  lemma BlankLineSkipped(s: LoadState, line: string)
    requires forall j :: 0 <= j < |line| ==> line[j] == ' '
    ensures LineStep(s, line) == Ok(s)
  {
    OnlySeparatorsGiveNoTokens(line, ' ');
  }

  /**
   * No line sets the smoothing group (an s line is ignored), so it stays empty and every face
   * carries the empty name.
   */
  lemma {:induction false} SmoothingGroupStaysEmpty(lines: seq<string>)
    ensures ReadLines(lines).Ok? ==> ReadLines(lines).value.CurrentSmoothingGroup == ""
    ensures ReadLines(lines).Ok? ==> forall f :: f in ReadLines(lines).value.Faces ==> f.SmoothingGroupName == Some("")
  {
    if |lines| > 0 {
      var prev := ReadLines(lines[..|lines| - 1]);
      var tokens := SplitRemoveEmpty(lines[|lines| - 1], ' ');
      SmoothingGroupStaysEmpty(lines[..|lines| - 1]);
      if prev.Ok? && |tokens| > 0 && Directive(prev.value, tokens).Ok? {
        SmoothingGroupUnchanged(prev.value, tokens);
        DirectiveFrame(prev.value, tokens);
        if tokens[0] == "f" {
          FaceLine(prev.value, tokens);
          var r := Directive(prev.value, tokens).value;
          assert r.Faces == prev.value.Faces + [r.Faces[|prev.value.Faces|]];
        }
      }
    }
  }

  /** Every material of a successful load is a default one, one per newmtl line read. */
  lemma {:induction false} FilesGiveDefaults(names: seq<string>, files: map<string, seq<string>>)
    ensures MaterialsOfFiles(names, files).Ok? ==> forall m :: m in MaterialsOfFiles(names, files).value ==> m == DefaultMaterial
  {
    if |names| > 0 {
      FilesGiveDefaults(names[..|names| - 1], files);
      var last := names[|names| - 1];
      if last in files {
        AllDefaults(files[last]);
      }
    }
  }

  lemma LoadedMaterialsAreDefaults(filepath: string, files: map<string, seq<string>>)
    ensures Load(filepath, files).Ok? ==> forall m :: m in Load(filepath, files).value.Materials ==> m == DefaultMaterial
  {
    if filepath in files && ReadLines(files[filepath]).Ok? && ReadLines(files[filepath]).value.MaterialFiles.Some? {
      FilesGiveDefaults(ReadLines(files[filepath]).value.MaterialFiles.value, files);
    }
  }

  /** A missing .obj file throws ArgumentException; so does a missing .mtl file it names, unless an earlier one threw. */
  lemma {:induction false} MissingLibraryThrows(names: seq<string>, files: map<string, seq<string>>, j: nat)
    requires j < |names| && names[j] !in files
    ensures MaterialsOfFiles(names, files).Fail?
  {
    if j < |names| - 1 {
      MissingLibraryThrows(names[..|names| - 1], files, j);
    }
  }

  lemma MissingFilesThrow(filepath: string, files: map<string, seq<string>>)
    ensures filepath !in files ==> Load(filepath, files) == Fail(Argument)
    ensures filepath in files && ReadLines(files[filepath]).Ok? && ReadLines(files[filepath]).value.MaterialFiles.Some? &&
            (exists j :: 0 <= j < |ReadLines(files[filepath]).value.MaterialFiles.value| &&
                       ReadLines(files[filepath]).value.MaterialFiles.value[j] !in files) ==>
            Load(filepath, files).Fail?
  {
    if filepath in files && ReadLines(files[filepath]).Ok? {
      ReadLinesKeepsMaterialFiles(files[filepath]);
      var names := ReadLines(files[filepath]).value.MaterialFiles.value;
      if j :| 0 <= j < |names| && names[j] !in files {
        MissingLibraryThrows(names, files, j);
      }
    }
  }

  /** Once a material file throws, the files after it are never read. */
  lemma {:induction false} MaterialsOfFilesFailurePersists(names: seq<string>, files: map<string, seq<string>>, i: nat)
    requires i <= |names|
    ensures MaterialsOfFiles(names[..i], files).Fail? ==> MaterialsOfFiles(names, files) == MaterialsOfFiles(names[..i], files)
    decreases |names| - i
  {
    if i < |names| && MaterialsOfFiles(names[..i], files).Fail? {
      assert names[..i + 1][..i] == names[..i];
      MaterialsOfFilesFailurePersists(names, files, i + 1);
    } else if i == |names| {
      assert names[..i] == names;
    }
  }
}
