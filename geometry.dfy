/**
 * A Geometry value: a shape kind, its dimensions, a resolved mesh resource and a
 * pose offset, together with the shape object built from them once at construction.
 * The external shape library is represented only by the `Shape` datatype.
 */
module Geometry {
  import opened Wrappers
  import ST = ShapeType

  /** `Eigen::Vector3d`: three components that this module only copies and indexes. */
  datatype Vector3d = Vector3d(x: real, y: real, z: real)

  /** `Eigen::Affine3d`: a pose offset, carried unchanged; its parts are not inspected or constrained here. */
  datatype Affine3d = Affine3d(linear: seq<real>, translation: Vector3d)

  /** The shape objects of the external shape library, by constructor and constructor arguments. */
  datatype Shape =
    | BoxShape(x: real, y: real, z: real)
    | SphereShape(radius: real)
    | CylinderShape(radius: real, length: real)
    | ConeShape(radius: real, length: real)
    | MeshShape(resource: string, scale: Vector3d)

  /** Why a kind-specific message accessor produced no message. */
  datatype Error = WrongShapeVariant

  /** `v[i]` on a 3-vector. */
  function Component(v: Vector3d, i: nat): real
    requires i < 3
  {
    if i == 0 then v.x else if i == 1 then v.y else v.z
  }

  /** The leading `n` components of `v`, in index order. */
  function Leading(v: Vector3d, n: nat): (r: seq<real>)
    requires n <= 3
    ensures |r| == n
    ensures forall i :: 0 <= i < n ==> r[i] == Component(v, i)
  {
    [v.x, v.y, v.z][..n]
  }

  /** The kind a shape object is an instance of. */
  function KindOf(s: Shape): ST.Type
  {
    match s
    case BoxShape(_, _, _) => ST.Box
    case SphereShape(_) => ST.Sphere
    case CylinderShape(_, _) => ST.Cylinder
    case ConeShape(_, _) => ST.Cone
    case MeshShape(_, _) => ST.Mesh
  }

  /** How many dimension components the shape constructor of a kind consumes. */
  function Arity(kind: ST.Type): (n: nat)
    ensures n <= 3
  {
    match kind
    case Box => 3
    case Sphere => 1
    case Cylinder => 2
    case Cone => 2
    case Mesh => 3
  }

  /** The numeric arguments a shape was constructed from, in argument order. */
  function Arguments(s: Shape): seq<real>
  {
    match s
    case BoxShape(x, y, z) => [x, y, z]
    case SphereShape(r) => [r]
    case CylinderShape(r, l) => [r, l]
    case ConeShape(r, l) => [r, l]
    case MeshShape(_, scale) => [scale.x, scale.y, scale.z]
  }

  /** The mesh resource a shape was loaded from, if it is a mesh. */
  function ResourceOf(s: Shape): Option<string>
  {
    if s.MeshShape? then Some(s.resource) else None
  }

  /**
   * `loadShape`: build the shape of `kind` from the leading dimension components;
   * a mesh is loaded from the resolved resource and scaled by all three.
   */
  function LoadShape(kind: ST.Type, dims: Vector3d, resource: string): (s: Shape)
    ensures KindOf(s) == kind
    ensures Arguments(s) == Leading(dims, Arity(kind))
    ensures ResourceOf(s) == if kind == ST.Mesh then Some(resource) else None
  {
    match kind
    case Box => BoxShape(Component(dims, 0), Component(dims, 1), Component(dims, 2))
    case Sphere => SphereShape(Component(dims, 0))
    case Cylinder => CylinderShape(Component(dims, 0), Component(dims, 1))
    case Cone => ConeShape(Component(dims, 0), Component(dims, 1))
    case Mesh => MeshShape(resource, dims)
  }

  /**
   * Two loads give the same shape exactly when they agree on the kind, on the
   * dimension components that kind reads and, for a mesh, on the resource.
   */
  lemma LoadShapeReadsOnlyItsInputs(k1: ST.Type, d1: Vector3d, r1: string, k2: ST.Type, d2: Vector3d, r2: string)
    ensures LoadShape(k1, d1, r1) == LoadShape(k2, d2, r2)
        <==> k1 == k2 && Leading(d1, Arity(k1)) == Leading(d2, Arity(k2)) && (k1 == ST.Mesh ==> r1 == r2)
  {
  }

  /** A constructed Geometry (the C++ class's fields; none of them changes after construction). */
  datatype Geometry = Geometry(
    kind: ST.Type,
    dimensions: Vector3d,
    offset: Affine3d,
    resource: string,
    shape: Shape)

  /** The construction invariant: the shape is the one `loadShape` builds from the stored fields. */
  predicate Valid(g: Geometry)
  {
    g.shape == LoadShape(g.kind, g.dimensions, g.resource)
  }

  /**
   * The constructor (Eigen form): stores kind, dimensions and offset, resolves the
   * resource with the path-resolution collaborator, then loads the shape.
   */
  function New(kind: ST.Type, dimensions: Vector3d, resource: string, offset: Affine3d,
               resolvePath: string -> string): (g: Geometry)
    ensures Valid(g)
    ensures g.kind == kind && g.dimensions == dimensions && g.offset == offset
    ensures g.resource == resolvePath(resource)
    ensures KindOf(g.shape) == kind
  {
    var resolved := resolvePath(resource);
    Geometry(kind, dimensions, offset, resolved, LoadShape(kind, dimensions, resolved))
  }

  /** `isMesh`: whether the kind is MESH, which for a constructed value is whether its shape is a mesh. */
  function IsMesh(g: Geometry): (b: bool)
    ensures b <==> g.kind == ST.Mesh
    ensures Valid(g) ==> (b <==> g.shape.MeshShape?)
  {
    g.kind == ST.Mesh
  }

  /** `getSolidMsg`: the solid-primitive message, built only for a kind other than MESH. */
  function GetSolidMsg(g: Geometry): (r: Result<Shape, Error>)
    ensures r.Success? <==> !IsMesh(g)
    ensures r.Success? ==> r.value == g.shape
    ensures Valid(g) && r.Success? ==> !r.value.MeshShape? && KindOf(r.value) == g.kind
    ensures r.Failure? ==> r.error == WrongShapeVariant
  {
    if g.kind != ST.Mesh then Success(g.shape) else Failure(WrongShapeVariant)
  }

  /** `getMeshMsg`: the mesh message, built only for kind MESH. */
  function GetMeshMsg(g: Geometry): (r: Result<Shape, Error>)
    ensures r.Success? <==> IsMesh(g)
    ensures r.Success? ==> r.value == g.shape
    ensures Valid(g) && r.Success? ==> r.value.MeshShape? && r.value.resource == g.resource
    ensures r.Failure? ==> r.error == WrongShapeVariant
  {
    if g.kind == ST.Mesh then Success(g.shape) else Failure(WrongShapeVariant)
  }

  /** Exactly one of the two message accessors answers for any Geometry. */
  lemma ExactlyOneMessage(g: Geometry)
    ensures GetSolidMsg(g).Success? != GetMeshMsg(g).Success?
  {
  }

  /**
   * The shape a primitive Geometry's solid message is built from takes the leading
   * dimensions as constructor arguments, in order: a box its three extents, a sphere
   * its radius, a cylinder or cone its radius and length.
   */
  lemma SolidMsgCarriesDimensions(kind: ST.Type, dims: Vector3d, resource: string,
                                  offset: Affine3d, resolvePath: string -> string)
    requires kind != ST.Mesh
    ensures GetSolidMsg(New(kind, dims, resource, offset, resolvePath)).Success?
    ensures Arguments(GetSolidMsg(New(kind, dims, resource, offset, resolvePath)).value) == Leading(dims, Arity(kind))
    ensures GetMeshMsg(New(kind, dims, resource, offset, resolvePath)) == Failure(WrongShapeVariant)
  {
  }

  /** A box built from (2, 3, 4) reports extents (2, 3, 4); a sphere built from (5, 0, 0) reports radius 5. */
  lemma PrimitiveMsgExamples(resource: string, offset: Affine3d, resolvePath: string -> string)
    ensures GetSolidMsg(New(ST.Box, Vector3d(2.0, 3.0, 4.0), resource, offset, resolvePath)) == Success(BoxShape(2.0, 3.0, 4.0))
    ensures GetSolidMsg(New(ST.Sphere, Vector3d(5.0, 0.0, 0.0), resource, offset, resolvePath)) == Success(SphereShape(5.0))
  {
  }

  /**
   * A mesh Geometry is a mesh, answers only the mesh accessor, and its mesh is the
   * resolved resource scaled by the dimensions.
   */
  lemma MeshGeometryAnswersMeshOnly(dims: Vector3d, resource: string, offset: Affine3d,
                                    resolvePath: string -> string)
    ensures IsMesh(New(ST.Mesh, dims, resource, offset, resolvePath))
    ensures GetMeshMsg(New(ST.Mesh, dims, resource, offset, resolvePath)) == Success(MeshShape(resolvePath(resource), dims))
    ensures GetSolidMsg(New(ST.Mesh, dims, resource, offset, resolvePath)) == Failure(WrongShapeVariant)
  {
  }
}
