/**
 * Properties of the TraverseVisible callback of `ParseAsync`: the output
 * gains one Xform per mesh in traversal order; the traversal succeeds when
 * every mesh has a material and both attribute arrays, and only when every
 * mesh has a material; the materials dictionary holds the first material
 * seen under each Id and the files dictionary the geometry file of the first
 * mesh seen for each geometry Id; and nothing present before is changed.
 */
module ExporterRegistration {
  import opened Wrappers
  import opened Collections
  import opened Three
  import opened ExporterText
  import opened UsdzExporter
  import opened ExporterTextProperties

  /** The Xforms of the meshes among the objects, in traversal order. */
  function Xforms(objects: seq<Object3D>): seq<string>
  {
    if objects == [] then []
    else
      var o := objects[|objects| - 1];
      Xforms(objects[..|objects| - 1])
        + (if o.MeshObject? then XformLines(o.id, o.matrixWorld, o.geometry.id, o.material) else [])
  }

  /** The object is a mesh whose material has Id `k`. */
  predicate UsesMaterial(o: Object3D, k: nat)
  {
    o.MeshObject? && o.material.Some? && o.material.value.id == k
  }

  /** The object is a mesh whose geometry file is called `name`. */
  predicate UsesGeometryFile(o: Object3D, name: string)
  {
    o.MeshObject? && GeometryFileName(o.geometry.id) == name
  }

  /** The traversal appends the Xforms of the meshes, in order, to the output. */
  lemma {:induction false} RegisteredOutput(s: Registry, objects: seq<Object3D>)
    ensures Registered(s, objects).Ok? ==> Registered(s, objects).value.output == s.output + Xforms(objects)
  {
    if objects != [] {
      RegisteredOutput(s, objects[..|objects| - 1]);
    }
  }

  /** When the traversal succeeds every mesh has a material. */
  lemma {:induction false} RegisteredMaterialsPresent(s: Registry, objects: seq<Object3D>)
    ensures Registered(s, objects).Ok? ==>
      forall j :: 0 <= j < |objects| && objects[j].MeshObject? ==> objects[j].material.Some?
  {
    if objects != [] {
      var objects' := objects[..|objects| - 1];
      RegisteredMaterialsPresent(s, objects');
      if Registered(s, objects).Ok? {
        assert forall j :: 0 <= j < |objects'| ==> objects'[j] == objects[j];
      }
    }
  }

  /** Every mesh with a material and both attribute arrays: then the traversal succeeds. */
  lemma {:induction false} RegisteredSucceeds(s: Registry, objects: seq<Object3D>)
    requires forall j :: 0 <= j < |objects| && objects[j].MeshObject? ==>
      objects[j].material.Some? && objects[j].geometry.normals.Some? && objects[j].geometry.vertices.Some?
    ensures Registered(s, objects).Ok?
  {
    if objects != [] {
      var objects' := objects[..|objects| - 1];
      assert forall j :: 0 <= j < |objects'| ==> objects'[j] == objects[j];
      RegisteredSucceeds(s, objects');
      var o := objects[|objects| - 1];
      if o.MeshObject? {
        GeometryFileErr(o.geometry);
      }
    }
  }

  /** A material Id is in the dictionary exactly when it was before or some mesh has a material of that Id. */
  lemma {:induction false} RegisteredMaterialKeys(s: Registry, objects: seq<Object3D>, k: nat)
    requires Registered(s, objects).Ok?
    ensures k in Registered(s, objects).value.materials.values
        <==> k in s.materials.values || exists j :: 0 <= j < |objects| && UsesMaterial(objects[j], k)
  {
    if objects != [] {
      var objects' := objects[..|objects| - 1];
      var o := objects[|objects| - 1];
      RegisteredMaterialKeys(s, objects', k);
      if exists j :: 0 <= j < |objects| && UsesMaterial(objects[j], k) {
        var j :| 0 <= j < |objects| && UsesMaterial(objects[j], k);
        if j < |objects'| {
          assert objects'[j] == objects[j];
        }
      }
      if exists j :: 0 <= j < |objects'| && UsesMaterial(objects'[j], k) {
        var j :| 0 <= j < |objects'| && UsesMaterial(objects'[j], k);
        assert objects[j] == objects'[j];
      }
    }
  }

  /** The dictionary keeps the material of the first mesh with that material Id. */
  lemma {:induction false} RegisteredMaterialFirst(s: Registry, objects: seq<Object3D>, j: nat)
    requires Registered(s, objects).Ok? && j < |objects| && objects[j].MeshObject? && objects[j].material.Some?
    requires objects[j].material.value.id !in s.materials.values
    requires forall i :: 0 <= i < j ==> !UsesMaterial(objects[i], objects[j].material.value.id)
    ensures objects[j].material.value.id in Registered(s, objects).value.materials.values
    ensures Registered(s, objects).value.materials.values[objects[j].material.value.id] == objects[j].material.value
  {
    var objects' := objects[..|objects| - 1];
    var k := objects[j].material.value.id;
    if j == |objects| - 1 {
      RegisteredMaterialKeys(s, objects', k);
      assert forall i :: 0 <= i < |objects'| ==> objects'[i] == objects[i];
    } else {
      assert objects'[j] == objects[j];
      assert forall i :: 0 <= i < j ==> objects'[i] == objects[i];
      RegisteredMaterialFirst(s, objects', j);
    }
  }

  /** A material present before the traversal is left as it was. */
  lemma {:induction false} RegisteredMaterialKept(s: Registry, objects: seq<Object3D>, k: nat)
    requires Registered(s, objects).Ok? && k in s.materials.values
    ensures k in Registered(s, objects).value.materials.values
    ensures Registered(s, objects).value.materials.values[k] == s.materials.values[k]
  {
    if objects != [] {
      RegisteredMaterialKept(s, objects[..|objects| - 1], k);
    }
  }

  /** A file is in the dictionary exactly when it was before or it is the geometry file of some mesh. */
  lemma {:induction false} RegisteredFileKeys(s: Registry, objects: seq<Object3D>, name: string)
    requires Registered(s, objects).Ok?
    ensures name in Registered(s, objects).value.files.values
        <==> name in s.files.values || exists j :: 0 <= j < |objects| && UsesGeometryFile(objects[j], name)
  {
    if objects != [] {
      var objects' := objects[..|objects| - 1];
      RegisteredFileStep(s, objects, name);
      RegisteredFileKeys(s, objects', name);
      if exists j :: 0 <= j < |objects| && UsesGeometryFile(objects[j], name) {
        var j :| 0 <= j < |objects| && UsesGeometryFile(objects[j], name);
        if j < |objects'| {
          assert objects'[j] == objects[j];
        }
      }
      if exists j :: 0 <= j < |objects'| && UsesGeometryFile(objects'[j], name) {
        var j :| 0 <= j < |objects'| && UsesGeometryFile(objects'[j], name);
        assert objects[j] == objects'[j];
      }
    }
  }

  /** The last object adds at most its own geometry file. */
  lemma RegisteredFileStep(s: Registry, objects: seq<Object3D>, name: string)
    requires objects != [] && Registered(s, objects).Ok?
    ensures Registered(s, objects[..|objects| - 1]).Ok?
    ensures name in Registered(s, objects).value.files.values
        <==> name in Registered(s, objects[..|objects| - 1]).value.files.values || UsesGeometryFile(objects[|objects| - 1], name)
  {
  }

  /**
   * The geometry file of a geometry Id is built from the first mesh with
   * that geometry; later meshes sharing the Id reuse it.
   */
  lemma {:induction false} RegisteredGeometryFirst(s: Registry, objects: seq<Object3D>, j: nat)
    requires Registered(s, objects).Ok? && j < |objects| && objects[j].MeshObject?
    requires GeometryFileName(objects[j].geometry.id) !in s.files.values
    requires forall i :: 0 <= i < j && objects[i].MeshObject? ==> objects[i].geometry.id != objects[j].geometry.id
    ensures GeometryFile(objects[j].geometry).Ok?
    ensures GeometryFileName(objects[j].geometry.id) in Registered(s, objects).value.files.values
    ensures Registered(s, objects).value.files.values[GeometryFileName(objects[j].geometry.id)]
         == Some(GeometryFile(objects[j].geometry).value)
  {
    var objects' := objects[..|objects| - 1];
    if j == |objects| - 1 {
      RegisteredGeometryLast(s, objects);
    } else {
      assert objects'[j] == objects[j];
      assert forall i :: 0 <= i < j ==> objects'[i] == objects[i];
      RegisteredGeometryFirst(s, objects', j);
    }
  }

  /** The last object is the first mesh with its geometry. */
  lemma RegisteredGeometryLast(s: Registry, objects: seq<Object3D>)
    requires objects != [] && Registered(s, objects).Ok?
    requires objects[|objects| - 1].MeshObject?
    requires GeometryFileName(objects[|objects| - 1].geometry.id) !in s.files.values
    requires forall i :: 0 <= i < |objects| - 1 && objects[i].MeshObject? ==>
      objects[i].geometry.id != objects[|objects| - 1].geometry.id
    ensures GeometryFile(objects[|objects| - 1].geometry).Ok?
    ensures GeometryFileName(objects[|objects| - 1].geometry.id) in Registered(s, objects).value.files.values
    ensures Registered(s, objects).value.files.values[GeometryFileName(objects[|objects| - 1].geometry.id)]
         == Some(GeometryFile(objects[|objects| - 1].geometry).value)
  {
    var objects' := objects[..|objects| - 1];
    var g := objects[|objects| - 1].geometry;
    var name := GeometryFileName(g.id);
    RegisteredFileKeys(s, objects', name);
    forall i | 0 <= i < |objects'| ensures !UsesGeometryFile(objects'[i], name)
    {
      assert objects'[i] == objects[i];
      if objects[i].MeshObject? {
        GeometryFileNameInjective(objects[i].geometry.id, g.id);
      }
    }
  }

  /**
   * A file present before the traversal is left as it was, the files
   * present before keep their positions, and every file the traversal adds
   * holds bytes.
   */
  lemma {:induction false} RegisteredFileKept(s: Registry, objects: seq<Object3D>, name: string)
    requires Registered(s, objects).Ok?
    ensures name in s.files.values ==> name in Registered(s, objects).value.files.values
    ensures name in s.files.values ==> Registered(s, objects).value.files.values[name] == s.files.values[name]
    ensures name in Registered(s, objects).value.files.values && name !in s.files.values
      ==> Registered(s, objects).value.files.values[name].Some?
  {
    if objects != [] {
      RegisteredFileKept(s, objects[..|objects| - 1], name);
    }
  }

  /** The files present before the traversal keep their positions in the enumeration order. */
  lemma {:induction false} RegisteredFileOrder(s: Registry, objects: seq<Object3D>)
    requires Registered(s, objects).Ok?
    ensures |Registered(s, objects).value.files.keys| >= |s.files.keys|
    ensures Registered(s, objects).value.files.keys[..|s.files.keys|] == s.files.keys
  {
    if objects != [] {
      var objects' := objects[..|objects| - 1];
      RegisteredFileOrder(s, objects');
      var f := Registered(s, objects').value.files;
      var f' := Registered(s, objects).value.files;
      assert f'.keys[..|f.keys|] == f.keys;
      assert f'.keys[..|s.files.keys|] == f.keys[..|s.files.keys|];
    }
  }
}
