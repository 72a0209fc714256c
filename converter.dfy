/**
 * NetRayTracer's ObjToSceneConverter: turns loaded .obj data into a scene of triangles. The
 * bitmaps a `new Bitmap(path)` would read are given as a map from paths to images.
 */
module SceneConverter {
  import opened Errors
  import opened Drawing
  import V3 = Vector3
  import opened Vertices
  import T = Triangles
  import F = ObjFormat
  import ObjLoader

  /** Scene: the triangle list Convert fills; Width and Height keep their default 0. */
  datatype Scene = Scene(Triangles: seq<T.Triangle>, Height: int, Width: int)

  /** The two dictionaries of Convert: bitmaps by path and converted materials by name. */
  datatype Tables = Tables(Bitmaps: map<string, Bitmap>, Materials: map<string, T.Material>)

  /**
   * The cache after LoadBitmap(path, cache): a null or empty path and a path already cached
   * change nothing, and a path no image exists for throws ArgumentException.
   */
  function Cached(cache: map<string, Bitmap>, path: Option<string>, images: map<string, Bitmap>): Result<map<string, Bitmap>>
  {
    if path.None? || path.value == "" then Ok(cache)
    else if path.value in cache then Ok(cache)
    else if path.value !in images then Fail(Argument)
    else Ok(cache[path.value := images[path.value]])
  }

  /** The Dictionary<string, Bitmap> Convert passes to LoadBitmap, which inserts into it in place. */
  class BitmapCache {
    var cache: map<string, Bitmap>

    constructor ()
      ensures cache == map[]
    {
      cache := map[];
    }

    /** LoadBitmap(path, bitmaps) */
    method LoadBitmap(path: Option<string>, images: map<string, Bitmap>) returns (r: Result<()>)
      modifies this
      ensures Cached(old(cache), path, images).Fail? ==> r == Fail(Cached(old(cache), path, images).error) && cache == old(cache)
      ensures Cached(old(cache), path, images).Ok? ==> r == Ok(()) && cache == Cached(old(cache), path, images).value
    {
      if path.Some? && path.value != "" {
        if path.value !in cache {
          if path.value !in images {
            return Fail(Argument);
          }
          var b := images[path.value];
          cache := cache[path.value := b];
        }
      }
      return Ok(());
    }
  }

  /** The paths of the seven LoadBitmap calls at the top of the material loop, in their order. */
  function MapPaths(mat: F.Material): seq<Option<string>>
  {
    [mat.AlphaTextureMap, mat.AmbientTextureMap, mat.BumpMap, mat.DiffuseTextureMap,
     mat.DisplacementMap, mat.SpecularCoefficientMap, mat.SpecularTextureMap]
  }

  /** LoadBitmap on each path in turn; the first one that throws ends the sequence. */
  function CacheAll(cache: map<string, Bitmap>, paths: seq<Option<string>>, images: map<string, Bitmap>): Result<map<string, Bitmap>>
    decreases |paths|
  {
    if |paths| == 0 then Ok(cache)
    else
      var c :- Cached(cache, paths[0], images);
      CacheAll(c, paths[1..], images)
  }

  /** The cache after the seven LoadBitmap calls for a material. */
  function LoadMaps(cache: map<string, Bitmap>, mat: F.Material, images: map<string, Bitmap>): Result<map<string, Bitmap>>
  {
    CacheAll(cache, MapPaths(mat), images)
  }

  /** bitmaps[key]: a null key throws ArgumentNullException, an absent one KeyNotFoundException. */
  function Lookup<V>(m: map<string, V>, key: Option<string>): Result<V>
  {
    if key.None? then Fail(ArgumentNull)
    else if key.value !in m then Fail(KeyNotFound)
    else Ok(m[key.value])
  }

  /**
   * The scene material built from a loaded one. The six map lookups after the alpha map all read
   * the ambient texture key, and the texture reads the diffuse key.
   */
  function MaterialOf(mat: F.Material, bitmaps: map<string, Bitmap>): Result<T.Material>
  {
    var alpha :- Lookup(bitmaps, mat.AlphaTextureMap);
    var ambient :- Lookup(bitmaps, mat.AmbientTextureMap);
    var texture :- Lookup(bitmaps, mat.DiffuseTextureMap);
    Ok(T.Material(
      Texture := Some(texture), BumpMap := Some(ambient), DisplacementMap := Some(ambient),
      AmbientMap := Some(ambient), DiffuseMap := Some(ambient), SpecularMap := Some(ambient),
      SpecularCoefficientMap := Some(ambient), AlphaMap := Some(alpha),
      SpecularColor := mat.Specular, DiffuseColor := mat.Diffuse, AmbientColor := mat.Ambient,
      Transparency := mat.Transparency, SpecularCoefficient := mat.SpecularCoefficient, Name := mat.Name))
  }

  /** One pass of the material loop: load the maps, build the material, store it under its name. */
  function MaterialStep(st: Tables, mat: F.Material, images: map<string, Bitmap>): Result<Tables>
  {
    var b :- LoadMaps(st.Bitmaps, mat, images);
    var m :- MaterialOf(mat, b);
    if m.Name.None? then Fail(ArgumentNull)
    else Ok(Tables(b, st.Materials[m.Name.value := m]))
  }

  /** The dictionaries after the material loop over these materials. */
  function BuildMaterials(mats: seq<F.Material>, images: map<string, Bitmap>): Result<Tables>
  {
    if |mats| == 0 then Ok(Tables(map[], map[]))
    else
      var st :- BuildMaterials(mats[..|mats| - 1], images);
      MaterialStep(st, mats[|mats| - 1], images)
  }

  /** list[i] on a List: outside 0..Count-1 it throws ArgumentOutOfRangeException. */
  function At<X>(list: seq<X>, i: int): Result<X>
  {
    if 0 <= i < |list| then Ok(list[i]) else Fail(ArgumentOutOfRange)
  }

  /**
   * The triangle for face f: positions, then normals, then texture coordinates, each read at its
   * 1-based index minus one, then the material named by the face.
   */
  function FaceTriangle(f: F.Face, vs: seq<V3.Vec3>, ns: seq<V3.Vec3>, ts: seq<V3.Vec3>,
                        materials: map<string, T.Material>): Result<T.Triangle>
  {
    var p1 :- At(vs, f.Vert1.Vertex - 1);
    var p2 :- At(vs, f.Vert2.Vertex - 1);
    var p3 :- At(vs, f.Vert3.Vertex - 1);
    var n1 :- At(ns, f.Vert1.Normal - 1);
    var n2 :- At(ns, f.Vert2.Normal - 1);
    var n3 :- At(ns, f.Vert3.Normal - 1);
    var t1 :- At(ts, f.Vert1.TexCoord - 1);
    var t2 :- At(ts, f.Vert2.TexCoord - 1);
    var t3 :- At(ts, f.Vert3.TexCoord - 1);
    var m :- Lookup(materials, f.Material);
    Ok(T.MakeTriangle(Vertex(p1, n1, t1), Vertex(p2, n2, t2), Vertex(p3, n3, t3), Some(m)))
  }

  /** The triangles of the face loop, in face order. */
  function BuildTriangles(faces: seq<F.Face>, vs: seq<V3.Vec3>, ns: seq<V3.Vec3>, ts: seq<V3.Vec3>,
                          materials: map<string, T.Material>): Result<seq<T.Triangle>>
  {
    if |faces| == 0 then Ok([])
    else
      var before :- BuildTriangles(faces[..|faces| - 1], vs, ns, ts, materials);
      var t :- FaceTriangle(faces[|faces| - 1], vs, ns, ts, materials);
      Ok(before + [t])
  }

  /** What Convert returns for data holding these lists, or the exception it throws. */
  function Converted(vs: seq<V3.Vec3>, ns: seq<V3.Vec3>, ts: seq<V3.Vec3>, faces: seq<F.Face>,
                     mats: seq<F.Material>, images: map<string, Bitmap>): Result<Scene>
  {
    var st :- BuildMaterials(mats, images);
    var triangles :- BuildTriangles(faces, vs, ns, ts, st.Materials);
    Ok(Scene(triangles, 0, 0))
  }

  /** The body of the material loop up to `materials[m.Name] = m`. */
  method ConvertMaterial(bitmaps: BitmapCache, mat: F.Material, images: map<string, Bitmap>) returns (r: Result<T.Material>)
    modifies bitmaps
    ensures LoadMaps(old(bitmaps.cache), mat, images).Fail? ==> r == Fail(LoadMaps(old(bitmaps.cache), mat, images).error)
    ensures LoadMaps(old(bitmaps.cache), mat, images).Ok? ==>
              bitmaps.cache == LoadMaps(old(bitmaps.cache), mat, images).value && r == MaterialOf(mat, bitmaps.cache)
  {
    // what remains of the seven loads: CacheAll of the remaining paths from here gives LoadMaps
    ghost var pending := MapPaths(mat);
    var _ :- bitmaps.LoadBitmap(mat.AlphaTextureMap, images);
    pending := pending[1..];
    assert LoadMaps(old(bitmaps.cache), mat, images) == CacheAll(bitmaps.cache, pending, images);
    var _ :- bitmaps.LoadBitmap(mat.AmbientTextureMap, images);
    pending := pending[1..];
    assert LoadMaps(old(bitmaps.cache), mat, images) == CacheAll(bitmaps.cache, pending, images);
    var _ :- bitmaps.LoadBitmap(mat.BumpMap, images);
    pending := pending[1..];
    assert LoadMaps(old(bitmaps.cache), mat, images) == CacheAll(bitmaps.cache, pending, images);
    var _ :- bitmaps.LoadBitmap(mat.DiffuseTextureMap, images);
    pending := pending[1..];
    assert LoadMaps(old(bitmaps.cache), mat, images) == CacheAll(bitmaps.cache, pending, images);
    var _ :- bitmaps.LoadBitmap(mat.DisplacementMap, images);
    pending := pending[1..];
    assert LoadMaps(old(bitmaps.cache), mat, images) == CacheAll(bitmaps.cache, pending, images);
    var _ :- bitmaps.LoadBitmap(mat.SpecularCoefficientMap, images);
    pending := pending[1..];
    assert LoadMaps(old(bitmaps.cache), mat, images) == CacheAll(bitmaps.cache, pending, images);
    var _ :- bitmaps.LoadBitmap(mat.SpecularTextureMap, images);
    pending := pending[1..];
    assert LoadMaps(old(bitmaps.cache), mat, images) == CacheAll(bitmaps.cache, pending, images);
    assert pending == [];

    var alphaMap :- Lookup(bitmaps.cache, mat.AlphaTextureMap);
    var ambientMap :- Lookup(bitmaps.cache, mat.AmbientTextureMap);
    // the next five read the key just found, so they cannot throw
    var bumpMap := Lookup(bitmaps.cache, mat.AmbientTextureMap).value;
    var diffuseMap := Lookup(bitmaps.cache, mat.AmbientTextureMap).value;
    var displacementMap := Lookup(bitmaps.cache, mat.AmbientTextureMap).value;
    var specularCoefficientMap := Lookup(bitmaps.cache, mat.AmbientTextureMap).value;
    var specularMap := Lookup(bitmaps.cache, mat.AmbientTextureMap).value;
    var texture :- Lookup(bitmaps.cache, mat.DiffuseTextureMap);
    return Ok(T.Material(
      Texture := Some(texture), BumpMap := Some(bumpMap), DisplacementMap := Some(displacementMap),
      AmbientMap := Some(ambientMap), DiffuseMap := Some(diffuseMap), SpecularMap := Some(specularMap),
      SpecularCoefficientMap := Some(specularCoefficientMap), AlphaMap := Some(alphaMap),
      SpecularColor := mat.Specular, DiffuseColor := mat.Diffuse, AmbientColor := mat.Ambient,
      Transparency := mat.Transparency, SpecularCoefficient := mat.SpecularCoefficient, Name := mat.Name));
  }

  /** ObjToSceneConverter.Convert(data): the material loop, then the face loop. */
  method Convert(data: ObjLoader.ObjData, images: map<string, Bitmap>) returns (r: Result<Scene>)
    ensures r == Converted(data.vertices, data.normals, data.texCoords, data.faces, data.materials, images)
  {
    var materials :- ConvertMaterials(data.materials, images);
    var triangles :- ConvertFaces(data.faces, data.vertices, data.normals, data.texCoords, materials);
    return Ok(Scene(triangles, 0, 0));
  }

  /** Convert's material loop: the materials dictionary it leaves, or the exception that ends it. */
  method ConvertMaterials(mats: seq<F.Material>, images: map<string, Bitmap>) returns (r: Result<map<string, T.Material>>)
    ensures BuildMaterials(mats, images).Fail? ==> r == Fail(BuildMaterials(mats, images).error)
    ensures BuildMaterials(mats, images).Ok? ==> r == Ok(BuildMaterials(mats, images).value.Materials)
  {
    var materials: map<string, T.Material> := map[];
    var bitmaps := new BitmapCache();
    var i := 0;
    while i < |mats|
      invariant 0 <= i <= |mats|
      invariant BuildMaterials(mats[..i], images) == Ok(Tables(bitmaps.cache, materials))
    {
      MaterialsNext(mats, images, i);
      MaterialsFailurePersist(mats, images, i + 1);
      materials :- MaterialPass(bitmaps, materials, mats[i], images);
      i := i + 1;
    }
    assert mats[..|mats|] == mats;
    return Ok(materials);
  }

  /** The body of the material loop: convert one material and store it under its name, which must not be null. */
  method MaterialPass(bitmaps: BitmapCache, materials: map<string, T.Material>, mat: F.Material, images: map<string, Bitmap>)
    returns (r: Result<map<string, T.Material>>)
    modifies bitmaps
    ensures MaterialStep(Tables(old(bitmaps.cache), materials), mat, images).Fail? ==>
              r == Fail(MaterialStep(Tables(old(bitmaps.cache), materials), mat, images).error)
    ensures MaterialStep(Tables(old(bitmaps.cache), materials), mat, images).Ok? ==>
              r.Ok? && Tables(bitmaps.cache, r.value) == MaterialStep(Tables(old(bitmaps.cache), materials), mat, images).value
  {
    ghost var before := Tables(bitmaps.cache, materials);
    var converted := ConvertMaterial(bitmaps, mat, images);
    MaterialStepCases(before, mat, images, converted, bitmaps.cache);
    var m :- converted;
    if m.Name.None? {
      return Fail(ArgumentNull);
    }
    return Ok(materials[m.Name.value := m]);
  }

  /** How one pass of the material loop ends, given what ConvertMaterial returned and left in the cache. */
  lemma MaterialStepCases(st: Tables, mat: F.Material, images: map<string, Bitmap>, r: Result<T.Material>,
                          cache: map<string, Bitmap>)
    requires LoadMaps(st.Bitmaps, mat, images).Fail? ==> r == Fail(LoadMaps(st.Bitmaps, mat, images).error)
    requires LoadMaps(st.Bitmaps, mat, images).Ok? ==>
               cache == LoadMaps(st.Bitmaps, mat, images).value && r == MaterialOf(mat, cache)
    ensures r.Fail? ==> MaterialStep(st, mat, images) == Fail(r.error)
    ensures r.Ok? && r.value.Name.None? ==> MaterialStep(st, mat, images) == Fail(ArgumentNull)
    ensures r.Ok? && r.value.Name.Some? ==>
              MaterialStep(st, mat, images) == Ok(Tables(cache, st.Materials[r.value.Name.value := r.value]))
  {
  }

  /** Convert's face loop: the triangles it appends, or the exception that ends it. */
  method ConvertFaces(faces: seq<F.Face>, vs: seq<V3.Vec3>, ns: seq<V3.Vec3>, ts: seq<V3.Vec3>,
                      materials: map<string, T.Material>) returns (r: Result<seq<T.Triangle>>)
    ensures r == BuildTriangles(faces, vs, ns, ts, materials)
  {
    var triangles: seq<T.Triangle> := [];
    var j := 0;
    while j < |faces|
      invariant 0 <= j <= |faces|
      invariant BuildTriangles(faces[..j], vs, ns, ts, materials) == Ok(triangles)
    {
      assert faces[..j + 1][..j] == faces[..j];
      TrianglesFailurePersist(faces, vs, ns, ts, materials, j + 1);
      var t :- FaceTriangle(faces[j], vs, ns, ts, materials);
      triangles := triangles + [t];
      j := j + 1;
    }
    assert faces[..|faces|] == faces;
    return Ok(triangles);
  }

  /** One more material: the tables after it are those MaterialStep makes from the tables before it. */
  lemma MaterialsNext(mats: seq<F.Material>, images: map<string, Bitmap>, i: nat)
    requires i < |mats| && BuildMaterials(mats[..i], images).Ok?
    ensures BuildMaterials(mats[..i + 1], images) == MaterialStep(BuildMaterials(mats[..i], images).value, mats[i], images)
  {
    assert mats[..i + 1][..i] == mats[..i];
  }

  /** Once a material throws, the loop ends there. */
  lemma {:induction false} MaterialsFailurePersist(mats: seq<F.Material>, images: map<string, Bitmap>, i: nat)
    requires i <= |mats|
    ensures BuildMaterials(mats[..i], images).Fail? ==> BuildMaterials(mats, images) == BuildMaterials(mats[..i], images)
    decreases |mats| - i
  {
    if i < |mats| && BuildMaterials(mats[..i], images).Fail? {
      assert mats[..i + 1][..i] == mats[..i];
      MaterialsFailurePersist(mats, images, i + 1);
    } else if i == |mats| {
      assert mats[..i] == mats;
    }
  }

  /** Once a face throws, the loop ends there. */
  lemma {:induction false} TrianglesFailurePersist(faces: seq<F.Face>, vs: seq<V3.Vec3>, ns: seq<V3.Vec3>, ts: seq<V3.Vec3>,
                                                   materials: map<string, T.Material>, i: nat)
    requires i <= |faces|
    ensures BuildTriangles(faces[..i], vs, ns, ts, materials).Fail? ==>
              BuildTriangles(faces, vs, ns, ts, materials) == BuildTriangles(faces[..i], vs, ns, ts, materials)
    decreases |faces| - i
  {
    if i < |faces| && BuildTriangles(faces[..i], vs, ns, ts, materials).Fail? {
      assert faces[..i + 1][..i] == faces[..i];
      TrianglesFailurePersist(faces, vs, ns, ts, materials, i + 1);
    } else if i == |faces| {
      assert faces[..i] == faces;
    }
  }

  /** A null or empty path, or one already cached, leaves the cache as it is: nothing is ever replaced. */
  lemma LoadBitmapKeeps(cache: map<string, Bitmap>, path: Option<string>, images: map<string, Bitmap>)
    requires path.None? || path.value == "" || path.value in cache
    ensures Cached(cache, path, images) == Ok(cache)
  {
  }

  /**
   * A non-empty path that loads is in the cache afterwards, mapped to its image when it was not
   * cached before; every other entry is as it was. Only a missing image throws.
   */
  lemma LoadBitmapInserts(cache: map<string, Bitmap>, p: string, images: map<string, Bitmap>)
    requires p != ""
    ensures Cached(cache, Some(p), images).Fail? <==> p !in cache && p !in images
    ensures Cached(cache, Some(p), images).Fail? ==> Cached(cache, Some(p), images).error == Argument
    ensures Cached(cache, Some(p), images).Ok? ==>
              var c := Cached(cache, Some(p), images).value;
              p in c && (p !in cache ==> c[p] == images[p]) &&
              (forall k :: k != p ==> (k in c <==> k in cache)) &&
              (forall k :: k in cache ==> c[k] == cache[k])
  {
  }

  /** Loading a run of paths never caches the empty path. */
  lemma {:induction false} CacheAllNoEmptyKey(cache: map<string, Bitmap>, paths: seq<Option<string>>, images: map<string, Bitmap>)
    requires "" !in cache
    ensures CacheAll(cache, paths, images).Ok? ==> "" !in CacheAll(cache, paths, images).value
    decreases |paths|
  {
    if |paths| > 0 {
      var c := Cached(cache, paths[0], images);
      if c.Ok? {
        CacheAllNoEmptyKey(c.value, paths[1..], images);
      }
    }
  }

  /** Null paths are all skipped: the cache stays as it is. */
  lemma {:induction false} NullPathsSkipped(cache: map<string, Bitmap>, paths: seq<Option<string>>, images: map<string, Bitmap>)
    requires forall i :: 0 <= i < |paths| ==> paths[i].None?
    ensures CacheAll(cache, paths, images) == Ok(cache)
    decreases |paths|
  {
    if |paths| > 0 {
      assert paths[0].None?;
      NullPathsSkipped(cache, paths[1..], images);
    }
  }

  /** The seven loads never put the empty path in the cache. */
  lemma LoadMapsNoEmptyKey(cache: map<string, Bitmap>, mat: F.Material, images: map<string, Bitmap>)
    requires "" !in cache
    ensures LoadMaps(cache, mat, images).Ok? ==> "" !in LoadMaps(cache, mat, images).value
  {
    CacheAllNoEmptyKey(cache, MapPaths(mat), images);
  }

  /** The bitmap dictionary never holds the empty path. */
  lemma {:induction false} NoEmptyKey(mats: seq<F.Material>, images: map<string, Bitmap>)
    ensures BuildMaterials(mats, images).Ok? ==> "" !in BuildMaterials(mats, images).value.Bitmaps
  {
    if |mats| > 0 {
      NoEmptyKey(mats[..|mats| - 1], images);
      var st := BuildMaterials(mats[..|mats| - 1], images);
      if st.Ok? {
        LoadMapsNoEmptyKey(st.value.Bitmaps, mats[|mats| - 1], images);
      }
    }
  }

  /**
   * The material's maps come from three keys only: the alpha map from AlphaTextureMap, the texture
   * from DiffuseTextureMap, and the other six all from AmbientTextureMap.
   */
  lemma MapsFromThreeKeys(mat: F.Material, bitmaps: map<string, Bitmap>)
    ensures MaterialOf(mat, bitmaps).Ok? <==>
              mat.AlphaTextureMap.Some? && mat.AlphaTextureMap.value in bitmaps &&
              mat.AmbientTextureMap.Some? && mat.AmbientTextureMap.value in bitmaps &&
              mat.DiffuseTextureMap.Some? && mat.DiffuseTextureMap.value in bitmaps
    ensures MaterialOf(mat, bitmaps).Ok? ==>
              var m := MaterialOf(mat, bitmaps).value;
              var ambient := Some(bitmaps[mat.AmbientTextureMap.value]);
              m.AlphaMap == Some(bitmaps[mat.AlphaTextureMap.value]) &&
              m.Texture == Some(bitmaps[mat.DiffuseTextureMap.value]) &&
              m.AmbientMap == ambient && m.BumpMap == ambient && m.DiffuseMap == ambient &&
              m.DisplacementMap == ambient && m.SpecularCoefficientMap == ambient && m.SpecularMap == ambient &&
              m.Name == mat.Name && m.AmbientColor == mat.Ambient && m.DiffuseColor == mat.Diffuse &&
              m.SpecularColor == mat.Specular && m.Transparency == mat.Transparency &&
              m.SpecularCoefficient == mat.SpecularCoefficient
  {
  }

  /**
   * A path LoadBitmap skipped (null or empty) in one of the three keys read makes the material
   * throw, because an empty path is never cached.
   */
  lemma SkippedPathFails(st: Tables, mat: F.Material, images: map<string, Bitmap>)
    requires "" !in st.Bitmaps
    requires mat.AlphaTextureMap in {None, Some("")} || mat.AmbientTextureMap in {None, Some("")} ||
             mat.DiffuseTextureMap in {None, Some("")}
    ensures MaterialStep(st, mat, images).Fail?
  {
    LoadMapsNoEmptyKey(st.Bitmaps, mat, images);
  }

  /** The materials are keyed by name: a key is present exactly when some material carries that name. */
  lemma {:induction false} KeyedByName(mats: seq<F.Material>, images: map<string, Bitmap>)
    ensures BuildMaterials(mats, images).Ok? ==>
              forall k :: k in BuildMaterials(mats, images).value.Materials <==> exists i :: 0 <= i < |mats| && mats[i].Name == Some(k)
  {
    if |mats| > 0 && BuildMaterials(mats, images).Ok? {
      var init, last := mats[..|mats| - 1], mats[|mats| - 1];
      assert BuildMaterials(init, images).Ok?;
      var st := BuildMaterials(init, images).value;
      KeyedByName(init, images);
      StepStoresByName(st, last, images);
      assert mats == init + [last];
      NamesOfAppended(init, last, st.Materials.Keys, BuildMaterials(mats, images).value.Materials.Keys);
    }
  }

  /** Appending a named material to a list adds exactly its name to the names the list holds. */
  lemma NamesOfAppended(init: seq<F.Material>, last: F.Material, keys: set<string>, keys': set<string>)
    requires forall k :: k in keys <==> exists i :: 0 <= i < |init| && init[i].Name == Some(k)
    requires last.Name.Some? && keys' == keys + {last.Name.value}
    ensures forall k :: k in keys' <==> exists i :: 0 <= i < |init + [last]| && (init + [last])[i].Name == Some(k)
  {
    var mats := init + [last];
    forall k
      ensures k in keys' <==> exists i :: 0 <= i < |mats| && mats[i].Name == Some(k)
    {
      if k in keys {
        var i :| 0 <= i < |init| && init[i].Name == Some(k);
        assert mats[i] == init[i];
      } else if k == last.Name.value {
        assert mats[|mats| - 1].Name == Some(k);
      } else {
        forall i | 0 <= i < |mats|
          ensures mats[i].Name != Some(k)
        {
          if i < |init| {
            assert mats[i] == init[i];
          }
        }
      }
    }
  }

  /** One pass of the material loop stores exactly one more name, the material's own. */
  lemma StepStoresByName(st: Tables, mat: F.Material, images: map<string, Bitmap>)
    ensures MaterialStep(st, mat, images).Ok? ==>
              mat.Name.Some? && MaterialStep(st, mat, images).value.Materials.Keys == st.Materials.Keys + {mat.Name.value}
  {
  }

  /** A later material with the same name overwrites the stored one. */
  lemma LaterNameOverwrites(mats: seq<F.Material>, last: F.Material, images: map<string, Bitmap>)
    requires BuildMaterials(mats + [last], images).Ok?
    ensures BuildMaterials(mats, images).Ok? && last.Name.Some?
    ensures var before := BuildMaterials(mats, images).value;
            var after := BuildMaterials(mats + [last], images).value;
            var b := LoadMaps(before.Bitmaps, last, images).value;
            after.Materials == before.Materials[last.Name.value := MaterialOf(last, b).value]
  {
    assert (mats + [last])[..|mats|] == mats;
    var before := BuildMaterials(mats, images).value;
    assert BuildMaterials(mats + [last], images) == MaterialStep(before, last, images);
  }

  /** Each face gives exactly one triangle, in face order. */
  lemma {:induction false} OneTrianglePerFace(faces: seq<F.Face>, vs: seq<V3.Vec3>, ns: seq<V3.Vec3>, ts: seq<V3.Vec3>,
                                              materials: map<string, T.Material>)
    ensures BuildTriangles(faces, vs, ns, ts, materials).Ok? ==>
              var tris := BuildTriangles(faces, vs, ns, ts, materials).value;
              |tris| == |faces| &&
              forall i :: 0 <= i < |faces| ==> FaceTriangle(faces[i], vs, ns, ts, materials) == Ok(tris[i])
    ensures BuildTriangles(faces, vs, ns, ts, materials).Fail? ==>
              exists i :: 0 <= i < |faces| && FaceTriangle(faces[i], vs, ns, ts, materials).Fail?
  {
    if |faces| > 0 {
      var init := faces[..|faces| - 1];
      OneTrianglePerFace(init, vs, ns, ts, materials);
      assert forall i :: 0 <= i < |init| ==> init[i] == faces[i];
      if BuildTriangles(init, vs, ns, ts, materials).Fail? {
        var i :| 0 <= i < |init| && FaceTriangle(init[i], vs, ns, ts, materials).Fail?;
        assert faces[i] == init[i];
      }
    }
  }

  /** A face index within range on every list of the face. */
  predicate InRange(i: int, count: int)
  {
    1 <= i <= count
  }

  /**
   * A face converts exactly when its nine 1-based indices are in range and its material name is
   * stored; the triangle is then built from list[index - 1] with that material. An absent index
   * (0) is out of range.
   */
  lemma FaceIndicesResolve(f: F.Face, vs: seq<V3.Vec3>, ns: seq<V3.Vec3>, ts: seq<V3.Vec3>, materials: map<string, T.Material>)
    ensures FaceTriangle(f, vs, ns, ts, materials).Ok? <==>
              InRange(f.Vert1.Vertex, |vs|) && InRange(f.Vert2.Vertex, |vs|) && InRange(f.Vert3.Vertex, |vs|) &&
              InRange(f.Vert1.Normal, |ns|) && InRange(f.Vert2.Normal, |ns|) && InRange(f.Vert3.Normal, |ns|) &&
              InRange(f.Vert1.TexCoord, |ts|) && InRange(f.Vert2.TexCoord, |ts|) && InRange(f.Vert3.TexCoord, |ts|) &&
              f.Material.Some? && f.Material.value in materials
    ensures FaceTriangle(f, vs, ns, ts, materials).Ok? ==>
              var t := FaceTriangle(f, vs, ns, ts, materials).value;
              t.P0 == Vertex(vs[f.Vert1.Vertex - 1], ns[f.Vert1.Normal - 1], ts[f.Vert1.TexCoord - 1]) &&
              t.P1 == Vertex(vs[f.Vert2.Vertex - 1], ns[f.Vert2.Normal - 1], ts[f.Vert2.TexCoord - 1]) &&
              t.P2 == Vertex(vs[f.Vert3.Vertex - 1], ns[f.Vert3.Normal - 1], ts[f.Vert3.TexCoord - 1]) &&
              t.Material == Some(materials[f.Material.value])
    ensures !InRange(f.Vert1.Vertex, |vs|) ==> FaceTriangle(f, vs, ns, ts, materials) == Fail(ArgumentOutOfRange)
  {
  }

  /** A default material has null texture paths: its alpha map lookup throws ArgumentNullException. */
  lemma DefaultMaterialThrows(st: Tables, images: map<string, Bitmap>)
    ensures MaterialStep(st, F.DefaultMaterial, images) == Fail(ArgumentNull)
  {
    NullPathsSkipped(st.Bitmaps, MapPaths(F.DefaultMaterial), images);
  }

  /** With no materials stored, no face converts. */
  lemma {:induction false} NoMaterialsNoTriangles(faces: seq<F.Face>, vs: seq<V3.Vec3>, ns: seq<V3.Vec3>, ts: seq<V3.Vec3>)
    ensures BuildTriangles(faces, vs, ns, ts, map[]).Ok? ==> |faces| == 0
  {
    if |faces| > 0 {
      FaceIndicesResolve(faces[|faces| - 1], vs, ns, ts, map[]);
    }
  }

  /**
   * Every material a successful load returns is a default one with null texture paths, so the
   * first alpha map lookup throws; and with no materials every face's material lookup, or an
   * index before it, throws. Converting a loaded file succeeds only when it has neither faces nor
   * materials.
   */
  lemma LoadedDataConvertsOnlyWhenEmpty(filepath: string, files: map<string, seq<string>>, images: map<string, Bitmap>)
    requires ObjLoader.Load(filepath, files).Ok?
    ensures var l := ObjLoader.Load(filepath, files).value;
            Converted(l.Vertices, l.Normals, l.TexCoords, l.Faces, l.Materials, images).Ok? ==>
              |l.Materials| == 0 && |l.Faces| == 0
  {
    var l := ObjLoader.Load(filepath, files).value;
    ObjLoader.LoadedMaterialsAreDefaults(filepath, files);
    if |l.Materials| > 0 {
      var first := l.Materials[..1];
      assert first == [] + [l.Materials[0]] && first[..0] == [];
      assert l.Materials[0] in l.Materials;
      DefaultMaterialThrows(Tables(map[], map[]), images);
      assert BuildMaterials(first, images).Fail?;
      MaterialsFailurePersist(l.Materials, images, 1);
    } else {
      NoMaterialsNoTriangles(l.Faces, l.Vertices, l.Normals, l.TexCoords);
    }
  }
}
