# Geometry shapes of the robowflex library, in Dafny

This project models the shape abstraction of robowflex's `Geometry` class
(`src/geometry.cpp`): the closed set of shape kinds with their name table
(`Geometry::ShapeType`), and the `Geometry` value that stores a kind, its
dimensions, a pose offset and a resolved mesh resource, builds a shape object
from them by a dispatch on the kind, and hands out a solid-primitive or mesh
message depending on the kind.

- `wrappers.dfy` — `Option` and `Result`, used where the source leaves an
  error path unhandled.
- `shape_type.dfy` — module `ShapeType`: the kinds (`Box`, `Sphere`,
  `Cylinder`, `Cone`, `Mesh`, with the enumeration values 0..4, inferred from
  `MAX = MESH + 1` and the order of `STRINGS`), `MAX`,
  `STRINGS`, ASCII lowercasing, `ToType` (a method with the source's index
  loop), `ToString`, and the reference search `FindFrom`/`Lookup` that
  `ToType` is proved against.
- `geometry.dfy` — module `Geometry`: the `Shape` datatype standing for the
  external shape library's objects, `LoadShape`, the `Geometry` value with its
  construction invariant `Valid`, the constructor `New`, `IsMesh`,
  `GetSolidMsg` and `GetMeshMsg`.

Error paths. The source leaves three cases as `// TODO`
(src/geometry.cpp:27, 37 and 84). The model turns the first two into explicit
failures; the third cannot arise:

- `toType` on a name that matches no entry returns an uninitialised kind;
  `ShapeType.ToType` returns `Failure(UnknownShapeKind)` and never a kind.
- `toString` on a raw value at or past `MAX` reads past the table;
  `ShapeType.NameAt` returns `Failure(InvalidShapeKind)` (see Findings).
- The `default:` of `loadShape`'s switch cannot be reached in the model,
  because the kind is a closed datatype (see Left out).

The two message accessors have no TODO, but they too produce no usable
message for the wrong kind: `getSolidMsg` on a mesh returns the solid
primitive of a default message, and `getMeshMsg` on a primitive asks
`boost::get` for the wrong alternative, which throws `bad_get`.
`Geometry.GetSolidMsg` and `Geometry.GetMeshMsg` return
`Failure(WrongShapeVariant)` for both.

External collaborators become parameters or stand-ins. `IO::resolvePath` is
the function parameter `resolvePath` of `Geometry.New`. The shape library's
constructors and `createMeshFromResource` are represented by the `Shape`
constructors. Their arguments are the values the source passes to them. A
message is represented by the shape it is converted from. Dimensions and
offset are only stored, indexed and passed on, so doubles appear as `real`
and nothing depends on floating-point arithmetic.

## Model

| member | source | states |
|---|---|---|
| `ShapeType.TableCoversKinds` | src/geometry.cpp:7-8 | `MAX` is `MESH + 1`, equal to the 5 entries of `STRINGS`, so every kind's value indexes the table |
| `ShapeType.TableDistinct` | src/geometry.cpp:8 | no two table entries are equal |
| `ShapeType.FromOrdinal` | src/geometry.cpp:21 | the cast `(Type)i` yields a kind exactly when `i < MAX`, and that kind's value is `i` |
| `ShapeType.OrdinalRoundTrip` | src/geometry.cpp:7-8 | casting a kind's value back gives the same kind |
| `ShapeType.ToLowerChar` | src/geometry.cpp:13 | `tolower` maps an upper-case ASCII letter to the same letter in lower case and leaves every other character alone; the result is never upper case |
| `ShapeType.Lower` | src/geometry.cpp:12-13 | lowercasing keeps the length, applies `tolower` at every position and leaves no upper-case letter |
| `ShapeType.LowerIdentifiesCaseVariants` | src/geometry.cpp:12-13 | two strings lowercase to the same string if and only if they differ only in the case of ASCII letters |
| `ShapeType.LowerKeepsLowercase` | src/geometry.cpp:12-13 | lowercasing a string with no upper-case letter returns it unchanged |
| `ShapeType.ToString` | src/geometry.cpp:33-41 | every kind's canonical name is non-empty and lowercase |
| `ShapeType.ToStringInjective` | src/geometry.cpp:33-41 | two kinds have the same name if and only if they are the same kind |
| `ShapeType.NameAt` | src/geometry.cpp:33-41 | a raw value has a name exactly when it is below `MAX`; that name is `toString` of the kind with that value; otherwise the error is `InvalidShapeKind` |
| `ShapeType.ToStringAsWritten` | src/geometry.cpp:33-41 | as written, the range check's branch is empty, so every raw value reaches `STRINGS[type]`; the read is inside the table exactly for values below 5, and there it agrees with `NameAt` |
| `ShapeType.ToStringGuardOffByOne` | src/geometry.cpp:35-40 | every value from `MAX` on reads past the table as written, where `NameAt` fails with `InvalidShapeKind`; and the check `type > MAX` (`ToStringGuardAdmitsAsWritten`), once its throw is written, would still admit `MAX`, which is not a table index |
| `ShapeType.FindFrom` | src/geometry.cpp:17-23 | the scan from index `from` returns the first index below `MAX` whose entry equals the name, and finds nothing exactly when no entry from there on equals it |
| `ShapeType.Lookup` | src/geometry.cpp:17-28 | a name yields a kind exactly when it is in the table, and then it is the kind with that name |
| `ShapeType.LookupRoundTrip` | src/geometry.cpp:10-41 | every kind's name, written in any mix of upper and lower case, lowercases and looks up to that kind |
| `ShapeType.LookupExamples` | src/geometry.cpp:12-19 | `"BOX"`, `"Box"` and `"box"` all give `Box`, `"MESH"` gives `Mesh`, and `"unknown"` gives no kind |
| `ShapeType.ToType` | src/geometry.cpp:10-31 | the result is a kind exactly when the lowercased input is in the table; it is the kind at the first matching index, no earlier entry matches, and it is the one kind whose name equals the lowercased input; otherwise `UnknownShapeKind` |
| `Geometry.LoadShape` | src/geometry.cpp:59-87 | the built shape is of the requested kind, its constructor arguments are the leading dimension components that kind reads (3 for a box, 1 for a sphere, 2 for a cylinder or cone, all 3 as mesh scale) in index order, and only a mesh carries the resource |
| `Geometry.LoadShapeReadsOnlyItsInputs` | src/geometry.cpp:61-81 | two loads build the same shape if and only if they agree on the kind, on the dimension components that kind reads and, for a mesh, on the resource |
| `Geometry.New` | src/geometry.cpp:43-51 | construction stores kind, dimensions and offset unchanged, sets the resource to `resolvePath(resource)`, and the shape is the one `loadShape` builds from those fields |
| `Geometry.IsMesh` | src/geometry.cpp:89-92 | true exactly when the kind is `MESH`, which for a constructed value is exactly when its shape is a mesh |
| `Geometry.GetSolidMsg` | src/geometry.cpp:94-101 | a message comes back exactly when the kind is not `MESH`; it is built from the stored shape, a primitive of the stored kind; otherwise the error is `WrongShapeVariant` |
| `Geometry.GetMeshMsg` | src/geometry.cpp:103-110 | a message comes back exactly when the kind is `MESH`; it is built from the stored mesh, loaded from the stored resource; otherwise the error is `WrongShapeVariant` |
| `Geometry.ExactlyOneMessage` | src/geometry.cpp:94-110 | for every Geometry exactly one of the two accessors gives a message |
| `Geometry.SolidMsgCarriesDimensions` | src/geometry.cpp:43-101 | the shape a constructed primitive's solid message is built from takes the leading dimensions the kind reads as constructor arguments, in index order (the message's own field order is not modelled, see Left out), and its mesh accessor fails |
| `Geometry.PrimitiveMsgExamples` | src/geometry.cpp:63-69 | a box built from (2, 3, 4) gives extents (2, 3, 4); a sphere built from (5, 0, 0) gives radius 5 |
| `Geometry.MeshGeometryAnswersMeshOnly` | src/geometry.cpp:43-110 | a constructed mesh is a mesh, its mesh message is the resolved resource scaled by the dimensions, and its solid accessor fails |

## Left out

- The message-form constructor (src/geometry.cpp:53-57) is not modelled. It only converts its arguments with `vectorMsgToEigen` and `poseMsgToEigen`, which are external floating-point conversions, and then calls the modelled constructor.
- `shapes::constructMsgFromShape` is not modelled field by field. A message is represented by the shape it is built from, so the message layout is not captured (for example, the order of height and radius in a cylinder message).
- `shapes::createMeshFromResource` reads a file. The model always yields a `MeshShape` of the resolved path and the scale. A load that fails, and the null shape the source would then hold, are not modelled.
- `IO::resolvePath` is filesystem resolution. It is the parameter `resolvePath`, and nothing is assumed about it.
- The `default:` branch of `loadShape`'s switch is not modelled. `ShapeType.Type` is a closed datatype, so no out-of-range kind can reach `LoadShape`.
- `std::shared_ptr` ownership and `boost::get` extraction are not modelled: they are memory and library mechanics.
- `::tolower` is modelled for the "C" locale only (ASCII letters). Other locales are not captured.
- `robowflex_library/include/robowflex_library/constants.h` holds only floating-point constants and is not part of this model.

## Findings

| source | as written | input that shows it | evidently intended | confidence | as-written member | corrected member |
|---|---|---|---|---|---|---|
| src/geometry.cpp:35-40 | the check `type > MAX` has an empty TODO body, so every value falls through to `STRINGS[type]`; once the throw is written, `MAX` would still get through | `type == MAX` (5), or any larger value, reads past the five-entry table | reject `type >= MAX`, so that only indices 0..4 reach the table | high (not executed) | `ShapeType.ToStringGuardOffByOne` | `ShapeType.NameAt` |
