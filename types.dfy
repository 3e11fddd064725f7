/** The part of `go/types` that the Go binding generator inspects: a closed set of type
    shapes, function signatures, struct fields, package-scope objects, and the helpers
    from other files of the `bind` package, which the caller supplies as functions. */
module GoTypes {

  datatype Option<+T> = None | Some(value: T)

  /** A Go package; identity of packages is equality of this value. */
  datatype Package = Package(name: string, path: string)

  /** The type shapes the generator distinguishes.
      `ErrorT` is the predeclared `error` type (recognised by `isErrorType`);
      `Named` carries the defining package (`None` for universe-scope names) and the
      underlying type; `Iface` and `Struct` are unnamed interface and struct literals;
      `Other` stands for every shape the generator does not look into (slices, maps,
      channels, signatures, ...). */
  datatype Type =
    | Basic(kind: string)
    | ErrorT
    | Ptr(elem: Type)
    | Named(name: string, pkg: Option<Package>, underlying: Type)
    | Iface(methods: seq<Func>)
    | Struct(fields: seq<Field>)
    | Other

  /** A function or method with its ordered parameter and result types. */
  datatype Func = Func(name: string, params: seq<Type>, results: seq<Type>)

  datatype Field = Field(name: string, typ: Type)

  /** What `makeIfaceSummary` reports about an interface. */
  datatype IfaceSummary = IfaceSummary(callable: seq<Func>, implementable: bool)

  /** Helpers of the `bind` package that live outside the generator's file. They are
      taken as given: `exportedFields` of a struct type, `exportedMethodSet` of a pointer
      type, `makeIfaceSummary` of an interface type, and `isCallable` of a function. */
  datatype Helpers = Helpers(
    exportedFields: Type -> seq<Field>,
    exportedMethodSet: Type -> seq<Func>,
    makeIfaceSummary: Type -> IfaceSummary,
    isCallable: Func -> bool)

  /** The kinds of objects a package scope holds. */
  datatype ObjKind =
    | FuncObj(params: seq<Type>, results: seq<Type>)
    | TypeNameObj(underlying: Type)
    | VarObj(typ: Type)
    | ConstObj
    | OtherObj

  /** One name of the package scope, with `Exported()` already decided. */
  datatype Object = Object(name: string, exported: bool, kind: ObjKind)

  /** `isErrorType`: the error shape is exactly the `ErrorT` constructor. */
  predicate IsErrorType(t: Type) {
    t.ErrorT?
  }

  /** Whether `t` is a named type to the type checker: a declared `Named` type, or the
      predeclared `error`, which is named too but belongs to no package. */
  predicate IsNamedType(t: Type) {
    t.Named? || t.ErrorT?
  }

  /** The package that declares a named type; `None` for `error` and the other
      universe-scope names. */
  function NamedPkg(t: Type): (p: Option<Package>)
    requires IsNamedType(t)
    ensures t.ErrorT? ==> p.None?
    ensures p.Some? ==> t.Named?
  {
    if t.Named? then t.pkg else None
  }

  /** The return shapes the generator rejects: more than two results, or two results
      whose second is not an error. */
  predicate BadArity(results: seq<Type>) {
    |results| > 2 || (|results| == 2 && !IsErrorType(results[1]))
  }
}
