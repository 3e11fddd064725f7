/** The Go side of the binding stub generator (`goGen` in bind/gengo.go).

    The first half gives, for every generation method, the step it appends to the output
    stream and to the diagnostic list as a function of its inputs; the class `GoGen` at
    the end performs the walk imperatively, and each of its methods is proved to append
    exactly that step. */
module GenGo {
  import opened GoTypes
  import opened Output

  // ---------------------------------------------------------------------------
  // Descriptors and codes

  /** Descriptor of a struct or interface: "go.<pkg>.<Type>". */
  function TypeDescriptor(pkg: Package, typeName: string): string {
    "go." + pkg.name + "." + typeName
  }

  /** Descriptor of a package variable: "<pkg>.<Var>". */
  function VarDescriptor(pkg: Package, name: string): string {
    pkg.name + "." + name
  }

  /** `0x<i>0f`, `0x<i>1f`, `0x<i>0c`: struct field getter, setter and method codes. */
  function FieldGetCode(i: nat): int { i * 0x100 + 0x0f }
  function FieldSetCode(i: nat): int { i * 0x100 + 0x1f }
  function StructMethodCode(i: nat): int { i * 0x100 + 0x0c }

  /** `0x<i+1>0a`: code of callable interface method `i`. */
  function IfaceMethodCode(i: nat): int { (i + 1) * 0x100 + 0x0a }

  /** Set and get codes of a package variable. */
  const VarSetCode := 1
  const VarGetCode := 2

  // ---------------------------------------------------------------------------
  // typeString: only the diagnostics it records

  function TypeStringErrors(pkg: Package, t: Type): seq<Diag> {
    match t
    case Named(_, p, u) =>
      if p.None? then []
      else
        (if p != Some(pkg) then [NotDefinedIn(t, pkg)] else [])
        + (if u.Iface? || u.Struct? then [] else [UnsupportedNamedTypeString(t)])
    case Ptr(e) =>
      if IsNamedType(e) then TypeStringErrors(pkg, e) else [PointerNotYetSupported(e)]
    case _ => []
  }

  // ---------------------------------------------------------------------------
  // genWrite and genRead

  function WriteStep(pkg: Package, v: Val, buf: Buf, t: Type): Step {
    if IsErrorType(t) then
      Emits([IfNil(v, WriteString(buf, EmptyString), WriteString(buf, ErrorMessage(v)))])
    else
      match t
      case Ptr(e) =>
        if IsNamedType(e) then
          if NamedPkg(e) != Some(pkg) then Fail(NotDefinedIn(e, pkg)) else Emits([WriteGoRef(buf, v)])
        else Fail(UnsupportedType(e))
      case Named(_, _, u) =>
        if u.Iface? || u.Ptr? then Emits([WriteGoRef(buf, v)]) else Fail(UnsupportedDirectNamed(t))
      case _ => Emits([WriteValue(buf, v, t)])
  }

  /** `hasProxy` of genRead: a named pointer always has one, a named interface exactly
      when its summary says it is implementable. */
  function HasProxy(h: Helpers, u: Type): bool {
    if u.Iface? then h.makeIfaceSummary(u).implementable else true
  }

  /** The handle read of a named interface or pointer type: the Go-object branch, and the
      foreign-proxy branch when there is a proxy. */
  function RefBranches(v: Val, buf: Buf, t: Type, hasProxy: bool): seq<Emit>
    requires t.Named?
  {
    [DeclVar(v, t), ReadRef(buf, v), GoObjectBranch(v, t.name)]
    + (if hasProxy then [ForeignProxyBranch(v, t.name)] else [])
    + [EndIf]
  }

  function ReadStep(h: Helpers, pkg: Package, v: Val, buf: Buf, t: Type): Step {
    if IsErrorType(t) then
      Emits([ReadError(buf, v)])
    else
      match t
      case Ptr(e) =>
        if IsNamedType(e) then
          if NamedPkg(e) != Some(pkg) then Fail(NotDefinedIn(e, pkg))
          else Emits([ReadRef(buf, v), AssertGoObject(v, v, e.name, true)])
        else Fail(UnsupportedPointer(t))
      case Named(_, p, u) =>
        if u.Iface? || u.Ptr? then
          if p != Some(pkg) then Fail(NotDefinedIn(t, pkg))
          else Step(RefBranches(v, buf, t, HasProxy(h, u)), TypeStringErrors(pkg, t))
        else Fail(UnsupportedNamed(t))
      case _ => Emits([ReadValue(buf, v, t)])
  }

  // ---------------------------------------------------------------------------
  // genFuncBody and genFunc

  /** Reads of the first `n` parameters, in order. */
  function ReadParams(h: Helpers, pkg: Package, ps: seq<Type>, n: nat): Step
    requires n <= |ps|
  {
    if n == 0 then Nothing()
    else Then(ReadParams(h, pkg, ps, n - 1), ReadStep(h, pkg, Param(n - 1), In, ps[n - 1]))
  }

  function ReturnsValue(res: seq<Type>): bool {
    |res| == 2 || (|res| == 1 && !IsErrorType(res[0]))
  }

  function ReturnsError(res: seq<Type>): bool {
    |res| == 2 || (|res| == 1 && IsErrorType(res[0]))
  }

  /** The writes of the call's results into `out`: the value, then the error. */
  function ResultWrites(pkg: Package, res: seq<Type>): Step {
    Then(if ReturnsValue(res) then WriteStep(pkg, Res, Out, res[0]) else Nothing(),
         if ReturnsError(res) then WriteStep(pkg, Err, Out, res[|res| - 1]) else Nothing())
  }

  /** The call and the writes of its results, for an accepted return shape. */
  function CallStep(pkg: Package, f: Func, recv: Receiver): Step {
    var res := f.results;
    Then(Emits([Call(recv, f.name, |f.params|, ReturnsValue(res), ReturnsError(res))]), ResultWrites(pkg, res))
  }

  function FuncBodyStep(h: Helpers, pkg: Package, f: Func, recv: Receiver): Step {
    var rd := ReadParams(h, pkg, f.params, |f.params|);
    if BadArity(f.results) then Then(rd, Fail(BadReturnArity))
    else Then(rd, CallStep(pkg, f, recv))
  }

  function FuncStep(h: Helpers, pkg: Package, f: Func): Step {
    Wrap([BeginHandler(FuncProxy(f.name))], FuncBodyStep(h, pkg, f, PackageLevel), [EndBlock])
  }

  // ---------------------------------------------------------------------------
  // genStruct

  function FieldCodeConsts(name: string, fields: seq<Field>, n: nat): seq<Emit>
    requires n <= |fields|
  {
    if n == 0 then []
    else FieldCodeConsts(name, fields, n - 1)
         + [CodeConst(FieldGet(name, fields[n - 1].name), FieldGetCode(n - 1)),
            CodeConst(FieldSet(name, fields[n - 1].name), FieldSetCode(n - 1))]
  }

  function MethodCodeConsts(name: string, methods: seq<Func>, n: nat): seq<Emit>
    requires n <= |methods|
  {
    if n == 0 then []
    else MethodCodeConsts(name, methods, n - 1)
         + [CodeConst(MethodProxy(name, methods[n - 1].name), StructMethodCode(n - 1))]
  }

  /** The setter and the getter of one field. */
  function FieldHandler(h: Helpers, pkg: Package, name: string, f: Field): Step {
    Then(Wrap([BeginHandler(FieldSet(name, f.name)), ReadRef(In, Self)],
              ReadStep(h, pkg, V, In, f.typ),
              [StoreField(name, f.name), EndBlock]),
         Wrap([BeginHandler(FieldGet(name, f.name)), ReadRef(In, Self), LoadField(name, f.name)],
              WriteStep(pkg, V, Out, f.typ),
              [EndBlock]))
  }

  function FieldHandlers(h: Helpers, pkg: Package, name: string, fields: seq<Field>, n: nat): Step
    requires n <= |fields|
  {
    if n == 0 then Nothing()
    else Then(FieldHandlers(h, pkg, name, fields, n - 1), FieldHandler(h, pkg, name, fields[n - 1]))
  }

  /** The entry point of a struct method (`pointer`: the receiver is `*T`) or of a
      callable interface method: read the receiver's handle, then the function body. */
  function MethodHandler(h: Helpers, pkg: Package, name: string, m: Func, pointer: bool): Step {
    Wrap([BeginHandler(MethodProxy(name, m.name)), ReadRef(In, Self), AssertGoObject(V, Self, name, pointer)],
         FuncBodyStep(h, pkg, m, Receiver),
         [EndBlock])
  }

  function StructMethodHandlers(h: Helpers, pkg: Package, name: string, methods: seq<Func>, n: nat): Step
    requires n <= |methods|
  {
    if n == 0 then Nothing()
    else Then(StructMethodHandlers(h, pkg, name, methods, n - 1),
              MethodHandler(h, pkg, name, methods[n - 1], true))
  }

  function FieldRegs(desc: string, name: string, fields: seq<Field>, n: nat): seq<Emit>
    requires n <= |fields|
  {
    if n == 0 then []
    else FieldRegs(desc, name, fields, n - 1)
         + [Register(desc, FieldSetCode(n - 1), FieldSet(name, fields[n - 1].name)),
            Register(desc, FieldGetCode(n - 1), FieldGet(name, fields[n - 1].name))]
  }

  function StructMethodRegs(desc: string, name: string, methods: seq<Func>, n: nat): seq<Emit>
    requires n <= |methods|
  {
    if n == 0 then []
    else StructMethodRegs(desc, name, methods, n - 1)
         + [Register(desc, StructMethodCode(n - 1), MethodProxy(name, methods[n - 1].name))]
  }

  /** The exported fields and the exported pointer-receiver methods of struct `name`. */
  function StructFields(h: Helpers, T: Type): seq<Field> {
    h.exportedFields(T)
  }

  function StructMethods(h: Helpers, pkg: Package, name: string, T: Type): seq<Func> {
    h.exportedMethodSet(Ptr(Named(name, Some(pkg), T)))
  }

  /** The constant block and the proxy type of a struct. */
  function StructConsts(pkg: Package, name: string, fields: seq<Field>, methods: seq<Func>): seq<Emit> {
    [DescriptorConst(name, TypeDescriptor(pkg, name))]
    + FieldCodeConsts(name, fields, |fields|)
    + MethodCodeConsts(name, methods, |methods|)
    + [RefType(name)]
  }

  /** The init block of a struct: every setter, getter and method code is registered. */
  function StructInit(desc: string, name: string, fields: seq<Field>, methods: seq<Func>): seq<Emit> {
    [BeginInit] + FieldRegs(desc, name, fields, |fields|) + StructMethodRegs(desc, name, methods, |methods|)
    + [EndBlock]
  }

  /** The entry points of a struct: field setters and getters, then methods. */
  function StructHandlers(h: Helpers, pkg: Package, name: string, fields: seq<Field>, methods: seq<Func>): Step {
    Then(FieldHandlers(h, pkg, name, fields, |fields|), StructMethodHandlers(h, pkg, name, methods, |methods|))
  }

  /** The constant block, the proxy type and the entry points of a struct. */
  function StructFront(h: Helpers, pkg: Package, name: string, fields: seq<Field>, methods: seq<Func>): Step {
    Then(Emits(StructConsts(pkg, name, fields, methods)), StructHandlers(h, pkg, name, fields, methods))
  }

  function StructStep(h: Helpers, pkg: Package, name: string, T: Type): Step {
    var fields := StructFields(h, T);
    var methods := StructMethods(h, pkg, name, T);
    Then(StructFront(h, pkg, name, fields, methods),
         Emits(StructInit(TypeDescriptor(pkg, name), name, fields, methods)))
  }

  // ---------------------------------------------------------------------------
  // genVar

  function VarStep(h: Helpers, pkg: Package, name: string, t: Type): Step {
    Then(Wrap([BeginHandler(VarSet(name))], ReadStep(h, pkg, V, In, t), [StoreVar(name), EndBlock]),
         Wrap([BeginHandler(VarGet(name))], WriteStep(pkg, PkgVar(name), Out, t), [EndBlock]))
  }

  // ---------------------------------------------------------------------------
  // genInterface

  function IfaceCodeConsts(name: string, callable: seq<Func>, n: nat): seq<Emit>
    requires n <= |callable|
  {
    if n == 0 then []
    else IfaceCodeConsts(name, callable, n - 1)
         + [CodeConst(MethodProxy(name, callable[n - 1].name), IfaceMethodCode(n - 1))]
  }

  function IfaceMethodHandlers(h: Helpers, pkg: Package, name: string, callable: seq<Func>, n: nat): Step
    requires n <= |callable|
  {
    if n == 0 then Nothing()
    else Then(IfaceMethodHandlers(h, pkg, name, callable, n - 1),
              MethodHandler(h, pkg, name, callable[n - 1], false))
  }

  function IfaceRegs(desc: string, name: string, callable: seq<Func>, n: nat): seq<Emit>
    requires n <= |callable|
  {
    if n == 0 then []
    else IfaceRegs(desc, name, callable, n - 1)
         + [Register(desc, IfaceMethodCode(n - 1), MethodProxy(name, callable[n - 1].name))]
  }

  /** Diagnostics of the typeString calls in the first `n` parameters of a proxy method. */
  function ParamTypeStringErrors(pkg: Package, ps: seq<Type>, n: nat): seq<Diag>
    requires n <= |ps|
  {
    if n == 0 then [] else ParamTypeStringErrors(pkg, ps, n - 1) + TypeStringErrors(pkg, ps[n - 1])
  }

  /** Diagnostics of the typeString calls that render a proxy method's signature. */
  function SignatureErrors(pkg: Package, m: Func): seq<Diag> {
    ParamTypeStringErrors(pkg, m.params, |m.params|)
    + (if |m.results| >= 1 then TypeStringErrors(pkg, m.results[0]) else [])
  }

  /** Writes of the first `n` parameters of a proxy method into `in`. */
  function WriteParams(pkg: Package, ps: seq<Type>, n: nat): Step
    requires n <= |ps|
  {
    if n == 0 then Nothing()
    else Then(WriteParams(pkg, ps, n - 1), WriteStep(pkg, Param(n - 1), In, ps[n - 1]))
  }

  /** Reads of the first `n` results of a proxy method from `out`. */
  function ReadResults(h: Helpers, pkg: Package, rs: seq<Type>, n: nat): Step
    requires n <= |rs|
  {
    if n == 0 then Nothing()
    else Then(ReadResults(h, pkg, rs, n - 1), ReadStep(h, pkg, ResAt(n - 1), Out, rs[n - 1]))
  }

  /** The transaction of a proxy method and what it does with the response: nothing
      without results, otherwise read every result from `out` and return them. */
  function TransactStep(h: Helpers, pkg: Package, name: string, desc: string, m: Func): Step {
    if |m.results| == 0 then Emits([Transact(desc, MethodProxy(name, m.name), false)])
    else Wrap([Transact(desc, MethodProxy(name, m.name), true)],
              ReadResults(h, pkg, m.results, |m.results|),
              [Return(|m.results|)])
  }

  /** The body of a forwarding method: a fresh buffer, the parameters written into it,
      the transaction. */
  function ForwardBody(h: Helpers, pkg: Package, name: string, desc: string, m: Func): Step {
    Then(Then(Emits([NewBuffer]), WriteParams(pkg, m.params, |m.params|)), TransactStep(h, pkg, name, desc, m))
  }

  /** The forwarding method of the proxy type for interface method `m`, or the arity
      diagnostic when its return shape is rejected. */
  function ForwardStep(h: Helpers, pkg: Package, name: string, desc: string, m: Func): Step {
    if BadArity(m.results) then Fail(BadMethodReturnArity(name, m.name))
    else
      Then(Then(Step([BeginForward(name, m.name)], SignatureErrors(pkg, m)),
                ForwardBody(h, pkg, name, desc, m)),
           Emits([EndBlock]))
  }

  function Forwarders(h: Helpers, pkg: Package, name: string, desc: string, ms: seq<Func>, n: nat): Step
    requires n <= |ms|
  {
    if n == 0 then Nothing()
    else Then(Forwarders(h, pkg, name, desc, ms, n - 1), ForwardStep(h, pkg, name, desc, ms[n - 1]))
  }

  /** An init block around `regs`, emitted only when `emit` holds. */
  function InitBlock(regs: seq<Emit>, emit: bool): seq<Emit> {
    if emit then [BeginInit] + regs + [EndBlock] else []
  }

  /** The constant block of an interface: its descriptor and one code per callable method. */
  function IfaceConsts(name: string, desc: string, callable: seq<Func>): seq<Emit> {
    [DescriptorConst(name, desc)] + IfaceCodeConsts(name, callable, |callable|)
  }

  /** The init block of an interface, present only when some method is callable. */
  function IfaceInit(desc: string, name: string, callable: seq<Func>): seq<Emit> {
    InitBlock(IfaceRegs(desc, name, callable, |callable|), |callable| > 0)
  }

  /** The constant block and the entry points of the callable methods. */
  function IfaceHead(h: Helpers, pkg: Package, name: string, desc: string, callable: seq<Func>): Step {
    Then(Emits(IfaceConsts(name, desc, callable)), IfaceMethodHandlers(h, pkg, name, callable, |callable|))
  }

  /** What genInterface emits whether or not the interface is implementable. */
  function IfaceFront(h: Helpers, pkg: Package, name: string, desc: string, callable: seq<Func>): Step {
    Then(IfaceHead(h, pkg, name, desc, callable), Emits(IfaceInit(desc, name, callable)))
  }

  /** The proxy type of an implementable interface and its forwarding methods. */
  function ProxyStep(h: Helpers, pkg: Package, name: string, desc: string, ms: seq<Func>): Step {
    Then(Emits([RefType(name)]), Forwarders(h, pkg, name, desc, ms, |ms|))
  }

  function InterfaceStep(h: Helpers, pkg: Package, name: string, iface: Type): Step
    requires iface.Iface?
  {
    var desc := TypeDescriptor(pkg, name);
    var s := h.makeIfaceSummary(iface);
    var front := IfaceFront(h, pkg, name, desc, s.callable);
    if !s.implementable then front
    else Then(front, ProxyStep(h, pkg, name, desc, iface.methods))
  }

  // ---------------------------------------------------------------------------
  // gen

  /** The function an exported function object denotes. */
  function FuncOf(o: Object): Func
    requires o.kind.FuncObj?
  {
    Func(o.name, o.kind.params, o.kind.results)
  }

  /** A named type: structs and interfaces are generated, other named types skipped. */
  function TypeDeclStep(h: Helpers, pkg: Package, name: string, u: Type): Step {
    if u.Struct? then StructStep(h, pkg, name, u)
    else if u.Iface? then InterfaceStep(h, pkg, name, u)
    else Nothing()
  }

  /** What gen's switch does with one exported scope name. */
  function DeclStep(h: Helpers, pkg: Package, o: Object): Step {
    match o.kind
    case FuncObj(_, _) => if h.isCallable(FuncOf(o)) then FuncStep(h, pkg, FuncOf(o)) else Nothing()
    case TypeNameObj(u) => TypeDeclStep(h, pkg, o.name, u)
    case VarObj(t) => VarStep(h, pkg, o.name, t)
    case ConstObj => Nothing()
    case OtherObj => Fail(NameNotYetSupported(o.name))
  }

  /** What the walk does with one scope name: unexported names are skipped. */
  function NameStep(h: Helpers, pkg: Package, o: Object): Step {
    if o.exported then DeclStep(h, pkg, o) else Nothing()
  }

  function WalkStep(h: Helpers, pkg: Package, names: seq<Object>, n: nat): Step
    requires n <= |names|
  {
    if n == 0 then Nothing()
    else Then(WalkStep(h, pkg, names, n - 1), NameStep(h, pkg, names[n - 1]))
  }

  predicate IsCollectedFunc(h: Helpers, o: Object) {
    o.exported && o.kind.FuncObj? && h.isCallable(FuncOf(o))
  }

  predicate IsCollectedVar(o: Object) {
    o.exported && o.kind.VarObj?
  }

  /** The names of the functions the walk over the first `n` names collects. */
  function CollectedFuncs(h: Helpers, names: seq<Object>, n: nat): seq<string>
    requires n <= |names|
  {
    if n == 0 then []
    else CollectedFuncs(h, names, n - 1) + (if IsCollectedFunc(h, names[n - 1]) then [names[n - 1].name] else [])
  }

  /** The names of the variables the walk over the first `n` names collects. */
  function CollectedVars(names: seq<Object>, n: nat): seq<string>
    requires n <= |names|
  {
    if n == 0 then []
    else CollectedVars(names, n - 1) + (if IsCollectedVar(names[n - 1]) then [names[n - 1].name] else [])
  }

  predicate AnyExported(names: seq<Object>, n: nat)
    requires n <= |names|
  {
    exists i :: 0 <= i < n && names[i].exported
  }

  /** Registration of the first `n` collected functions: codes 1, 2, ... under the
      package name. */
  function FuncRegs(pkg: Package, funcs: seq<string>, n: nat): seq<Emit>
    requires n <= |funcs|
  {
    if n == 0 then []
    else FuncRegs(pkg, funcs, n - 1) + [Register(pkg.name, n, FuncProxy(funcs[n - 1]))]
  }

  /** Registration of the setter and getter of the first `n` collected variables. */
  function VarRegs(pkg: Package, vars: seq<string>, n: nat): seq<Emit>
    requires n <= |vars|
  {
    if n == 0 then []
    else VarRegs(pkg, vars, n - 1)
         + [Register(VarDescriptor(pkg, vars[n - 1]), VarSetCode, VarSet(vars[n - 1])),
            Register(VarDescriptor(pkg, vars[n - 1]), VarGetCode, VarGet(vars[n - 1]))]
  }

  /** The two init blocks that close the generated file. */
  function GenInits(pkg: Package, funcs: seq<string>, vars: seq<string>): seq<Emit> {
    InitBlock(FuncRegs(pkg, funcs, |funcs|), |funcs| > 0) + InitBlock(VarRegs(pkg, vars, |vars|), |vars| > 0)
  }

  /** The diagnostic recorded when the package exports nothing. */
  function ExportCheck(pkg: Package, names: seq<Object>): Step {
    if AnyExported(names, |names|) then Nothing() else Fail(NoExportedNames(pkg.path))
  }

  /** The walk over all names, followed by the check that something is exported. */
  function CheckedWalk(h: Helpers, pkg: Package, names: seq<Object>): Step {
    Then(WalkStep(h, pkg, names, |names|), ExportCheck(pkg, names))
  }

  /** Everything gen emits after the preamble. */
  function GenBody(h: Helpers, pkg: Package, names: seq<Object>): Step {
    Then(CheckedWalk(h, pkg, names),
         Emits(GenInits(pkg, CollectedFuncs(h, names, |names|), CollectedVars(names, |names|))))
  }

  function GenStep(h: Helpers, pkg: Package, names: seq<Object>): Step {
    Then(Emits([Preamble(pkg)]), GenBody(h, pkg, names))
  }

  // ---------------------------------------------------------------------------
  // The generator


  /** The generator's state: the printer's output stream and the diagnostic list `err`.
      Every method appends to both and changes nothing else; each is proved to append
      exactly the step its specification function above describes. */
  class GoGen {
    const pkg: Package
    const h: Helpers
    /** The printer's output, as abstract items. */
    var out: seq<Emit>
    /** The diagnostics recorded so far (`g.err`). */
    var err: seq<Diag>

    constructor (pkg: Package, h: Helpers)
      ensures this.pkg == pkg && this.h == h
      ensures out == [] && err == []
    {
      this.pkg := pkg;
      this.h := h;
      out := [];
      err := [];
    }

    /** errorf: appends one diagnostic and keeps every earlier one in place. */
    method Errorf(d: Diag)
      modifies this
      ensures err == old(err) + [d]
      ensures |err| == |old(err)| + 1 && err[..|old(err)|] == old(err)
      ensures out == old(out)
    {
      err := err + [d];
    }

    /** The printer: appends items to the output. */
    method Printf(items: seq<Emit>)
      modifies this
      ensures out == old(out) + items
      ensures err == old(err)
    {
      out := out + items;
    }

    /** typeString, for the diagnostics it records. */
    method TypeString(t: Type)
      modifies this
      ensures out == old(out)
      ensures err == old(err) + TypeStringErrors(pkg, t)
      decreases t
    {
      match t {
        case Named(_, p, u) =>
          if p.None? {
            return;
          }
          if p != Some(pkg) {
            Errorf(NotDefinedIn(t, pkg));
          }
          if !(u.Iface? || u.Struct?) {
            Errorf(UnsupportedNamedTypeString(t));
          }
        case Ptr(e) =>
          if IsNamedType(e) {
            TypeString(e);
          } else {
            Errorf(PointerNotYetSupported(e));
          }
        case _ =>
      }
    }

    method GenWrite(v: Val, buf: Buf, t: Type)
      modifies this
      ensures out == old(out) + WriteStep(pkg, v, buf, t).out
      ensures err == old(err) + WriteStep(pkg, v, buf, t).errs
    {
      if IsErrorType(t) {
        Printf([IfNil(v, WriteString(buf, EmptyString), WriteString(buf, ErrorMessage(v)))]);
      } else if t.Ptr? {
        var e := t.elem;
        if IsNamedType(e) {
          if NamedPkg(e) != Some(pkg) {
            Errorf(NotDefinedIn(e, pkg));
            return;
          }
          Printf([WriteGoRef(buf, v)]);
        } else {
          Errorf(UnsupportedType(e));
        }
      } else if t.Named? {
        if t.underlying.Iface? || t.underlying.Ptr? {
          Printf([WriteGoRef(buf, v)]);
        } else {
          Errorf(UnsupportedDirectNamed(t));
        }
      } else {
        Printf([WriteValue(buf, v, t)]);
      }
    }

    method GenRead(v: Val, buf: Buf, t: Type)
      modifies this
      ensures out == old(out) + ReadStep(h, pkg, v, buf, t).out
      ensures err == old(err) + ReadStep(h, pkg, v, buf, t).errs
    {
      if IsErrorType(t) {
        Printf([ReadError(buf, v)]);
      } else if t.Ptr? {
        var u := t.elem;
        if IsNamedType(u) {
          if NamedPkg(u) != Some(pkg) {
            Errorf(NotDefinedIn(u, pkg));
            return;
          }
          Printf([ReadRef(buf, v), AssertGoObject(v, v, u.name, true)]);
        } else {
          Errorf(UnsupportedPointer(t));
        }
      } else if t.Named? {
        var u := t.underlying;
        if u.Iface? || u.Ptr? {
          var hasProxy := true;
          if u.Iface? {
            hasProxy := h.makeIfaceSummary(u).implementable;
          }
          if t.pkg != Some(pkg) {
            Errorf(NotDefinedIn(t, pkg));
            return;
          }
          TypeString(t);
          ghost var o1 := out;
          Printf([DeclVar(v, t), ReadRef(buf, v), GoObjectBranch(v, t.name)]);
          if hasProxy {
            Printf([ForeignProxyBranch(v, t.name)]);
          }
          Printf([EndIf]);
          assert out == o1 + RefBranches(v, buf, t, hasProxy);
        } else {
          Errorf(UnsupportedNamed(t));
        }
      } else {
        Printf([ReadValue(buf, v, t)]);
      }
    }

    /** genFuncBody: read every parameter, then either reject the return shape or make
        the call and write its results. */
    method GenFuncBody(f: Func, recv: Receiver)
      modifies this
      ensures out == old(out) + FuncBodyStep(h, pkg, f, recv).out
      ensures err == old(err) + FuncBodyStep(h, pkg, f, recv).errs
    {
      var params := f.params;
      var i := 0;
      while i < |params|
        invariant 0 <= i <= |params|
        invariant out == old(out) + ReadParams(h, pkg, params, i).out
        invariant err == old(err) + ReadParams(h, pkg, params, i).errs
      {
        GenReadParam(params, i, old(out), old(err));
        i := i + 1;
      }
      var res := f.results;
      if |res| > 2 || (|res| == 2 && !IsErrorType(res[1])) {
        Errorf(BadReturnArity);
        ThenAppend(old(out), old(err), ReadParams(h, pkg, params, |params|), Fail(BadReturnArity));
        return;
      }
      GenCall(f, recv);
      ThenAppend(old(out), old(err), ReadParams(h, pkg, params, |params|), CallStep(pkg, f, recv));
    }

    /** One iteration of genFuncBody's parameter loop. */
    method GenReadParam(params: seq<Type>, i: nat, ghost o: seq<Emit>, ghost e: seq<Diag>)
      requires i < |params|
      requires out == o + ReadParams(h, pkg, params, i).out
      requires err == e + ReadParams(h, pkg, params, i).errs
      modifies this
      ensures out == o + ReadParams(h, pkg, params, i + 1).out
      ensures err == e + ReadParams(h, pkg, params, i + 1).errs
    {
      GenRead(Param(i), In, params[i]);
      ThenAppend(o, e, ReadParams(h, pkg, params, i), ReadStep(h, pkg, Param(i), In, params[i]));
    }

    /** The call of genFuncBody and the writes of its results, for an accepted shape. */
    method GenCall(f: Func, recv: Receiver)
      requires !BadArity(f.results)
      modifies this
      ensures out == old(out) + CallStep(pkg, f, recv).out
      ensures err == old(err) + CallStep(pkg, f, recv).errs
    {
      var res := f.results;
      var returnsValue := false;
      var returnsError := false;
      if |res| == 1 {
        if IsErrorType(res[0]) {
          returnsError := true;
        } else {
          returnsValue := true;
        }
      } else if |res| == 2 {
        returnsValue := true;
        returnsError := true;
      }
      Printf([Call(recv, f.name, |f.params|, returnsValue, returnsError)]);
      GenResultWrites(res, returnsValue, returnsError);
      ThenAppend(old(out), old(err), Emits([Call(recv, f.name, |f.params|, returnsValue, returnsError)]),
                 ResultWrites(pkg, res));
    }

    method GenResultWrites(res: seq<Type>, returnsValue: bool, returnsError: bool)
      requires returnsValue == ReturnsValue(res) && returnsError == ReturnsError(res)
      modifies this
      ensures out == old(out) + ResultWrites(pkg, res).out
      ensures err == old(err) + ResultWrites(pkg, res).errs
    {
      if returnsValue {
        GenWrite(Res, Out, res[0]);
      }
      if returnsError {
        GenWrite(Err, Out, res[|res| - 1]);
      }
      ThenAppend(old(out), old(err), if returnsValue then WriteStep(pkg, Res, Out, res[0]) else Nothing(),
                 if returnsError then WriteStep(pkg, Err, Out, res[|res| - 1]) else Nothing());
    }

    method GenFunc(f: Func)
      modifies this
      ensures out == old(out) + FuncStep(h, pkg, f).out
      ensures err == old(err) + FuncStep(h, pkg, f).errs
    {
      Printf([BeginHandler(FuncProxy(f.name))]);
      GenFuncBody(f, PackageLevel);
      Printf([EndBlock]);
      WrapAppend(old(out), old(err), [BeginHandler(FuncProxy(f.name))],
                 FuncBodyStep(h, pkg, f, PackageLevel), [EndBlock]);
    }

    method GenStruct(name: string, T: Type)
      modifies this
      ensures out == old(out) + StructStep(h, pkg, name, T).out
      ensures err == old(err) + StructStep(h, pkg, name, T).errs
    {
      var fields := StructFields(h, T);
      var methods := StructMethods(h, pkg, name, T);
      var desc := TypeDescriptor(pkg, name);
      GenStructFront(name, fields, methods);
      GenStructInit(desc, name, fields, methods);
      ThenAppend(old(out), old(err), StructFront(h, pkg, name, fields, methods),
                 Emits(StructInit(desc, name, fields, methods)));
    }

    /** Constants, proxy type and entry points of a struct. */
    method GenStructFront(name: string, fields: seq<Field>, methods: seq<Func>)
      modifies this
      ensures out == old(out) + StructFront(h, pkg, name, fields, methods).out
      ensures err == old(err) + StructFront(h, pkg, name, fields, methods).errs
    {
      GenStructConsts(name, fields, methods);
      GenStructHandlers(name, fields, methods);
      ThenAppend(old(out), old(err), Emits(StructConsts(pkg, name, fields, methods)),
                 StructHandlers(h, pkg, name, fields, methods));
    }

    /** The constant block of genStruct, then its proxy type. */
    method GenStructConsts(name: string, fields: seq<Field>, methods: seq<Func>)
      modifies this
      ensures out == old(out) + StructConsts(pkg, name, fields, methods)
      ensures err == old(err)
    {
      Printf([DescriptorConst(name, TypeDescriptor(pkg, name))]);
      GenFieldCodeConsts(name, fields);
      GenMethodCodeConsts(name, methods);
      Printf([RefType(name)]);
    }

    method GenFieldCodeConsts(name: string, fields: seq<Field>)
      modifies this
      ensures out == old(out) + FieldCodeConsts(name, fields, |fields|)
      ensures err == old(err)
    {
      var i := 0;
      while i < |fields|
        invariant 0 <= i <= |fields|
        invariant out == old(out) + FieldCodeConsts(name, fields, i)
        invariant err == old(err)
      {
        Printf([CodeConst(FieldGet(name, fields[i].name), FieldGetCode(i)),
                CodeConst(FieldSet(name, fields[i].name), FieldSetCode(i))]);
        AppendAssoc(old(out), FieldCodeConsts(name, fields, i),
                    [CodeConst(FieldGet(name, fields[i].name), FieldGetCode(i)),
                     CodeConst(FieldSet(name, fields[i].name), FieldSetCode(i))]);
        i := i + 1;
      }
    }

    method GenMethodCodeConsts(name: string, methods: seq<Func>)
      modifies this
      ensures out == old(out) + MethodCodeConsts(name, methods, |methods|)
      ensures err == old(err)
    {
      var i := 0;
      while i < |methods|
        invariant 0 <= i <= |methods|
        invariant out == old(out) + MethodCodeConsts(name, methods, i)
        invariant err == old(err)
      {
        Printf([CodeConst(MethodProxy(name, methods[i].name), StructMethodCode(i))]);
        AppendAssoc(old(out), MethodCodeConsts(name, methods, i),
                    [CodeConst(MethodProxy(name, methods[i].name), StructMethodCode(i))]);
        i := i + 1;
      }
    }

    /** The field and method entry points of genStruct. */
    method GenStructHandlers(name: string, fields: seq<Field>, methods: seq<Func>)
      modifies this
      ensures out == old(out) + StructHandlers(h, pkg, name, fields, methods).out
      ensures err == old(err) + StructHandlers(h, pkg, name, fields, methods).errs
    {
      GenFieldHandlers(name, fields);
      GenStructMethodHandlers(name, methods);
      ThenAppend(old(out), old(err), FieldHandlers(h, pkg, name, fields, |fields|),
                 StructMethodHandlers(h, pkg, name, methods, |methods|));
    }

    /** The setter and getter entry points of every field, in order. */
    method GenFieldHandlers(name: string, fields: seq<Field>)
      modifies this
      ensures out == old(out) + FieldHandlers(h, pkg, name, fields, |fields|).out
      ensures err == old(err) + FieldHandlers(h, pkg, name, fields, |fields|).errs
    {
      var i := 0;
      while i < |fields|
        invariant 0 <= i <= |fields|
        invariant out == old(out) + FieldHandlers(h, pkg, name, fields, i).out
        invariant err == old(err) + FieldHandlers(h, pkg, name, fields, i).errs
      {
        GenFieldHandlerAt(name, fields, i, old(out), old(err));
        i := i + 1;
      }
    }

    method GenFieldHandlerAt(name: string, fields: seq<Field>, i: nat, ghost o: seq<Emit>, ghost e: seq<Diag>)
      requires i < |fields|
      requires out == o + FieldHandlers(h, pkg, name, fields, i).out
      requires err == e + FieldHandlers(h, pkg, name, fields, i).errs
      modifies this
      ensures out == o + FieldHandlers(h, pkg, name, fields, i + 1).out
      ensures err == e + FieldHandlers(h, pkg, name, fields, i + 1).errs
    {
      GenFieldHandler(name, fields[i]);
      ThenAppend(o, e, FieldHandlers(h, pkg, name, fields, i), FieldHandler(h, pkg, name, fields[i]));
    }

    /** The setter, then the getter, of one field. */
    method GenFieldHandler(name: string, f: Field)
      modifies this
      ensures out == old(out) + FieldHandler(h, pkg, name, f).out
      ensures err == old(err) + FieldHandler(h, pkg, name, f).errs
    {
      Printf([BeginHandler(FieldSet(name, f.name)), ReadRef(In, Self)]);
      GenRead(V, In, f.typ);
      Printf([StoreField(name, f.name), EndBlock]);
      WrapAppend(old(out), old(err), [BeginHandler(FieldSet(name, f.name)), ReadRef(In, Self)],
                 ReadStep(h, pkg, V, In, f.typ), [StoreField(name, f.name), EndBlock]);
      ghost var o1, e1 := out, err;
      Printf([BeginHandler(FieldGet(name, f.name)), ReadRef(In, Self), LoadField(name, f.name)]);
      GenWrite(V, Out, f.typ);
      Printf([EndBlock]);
      WrapAppend(o1, e1, [BeginHandler(FieldGet(name, f.name)), ReadRef(In, Self), LoadField(name, f.name)],
                 WriteStep(pkg, V, Out, f.typ), [EndBlock]);
      ThenAppend(old(out), old(err),
                 Wrap([BeginHandler(FieldSet(name, f.name)), ReadRef(In, Self)],
                      ReadStep(h, pkg, V, In, f.typ), [StoreField(name, f.name), EndBlock]),
                 Wrap([BeginHandler(FieldGet(name, f.name)), ReadRef(In, Self), LoadField(name, f.name)],
                      WriteStep(pkg, V, Out, f.typ), [EndBlock]));
    }

    /** The entry point of every exported pointer-receiver method, in order. */
    method GenStructMethodHandlers(name: string, methods: seq<Func>)
      modifies this
      ensures out == old(out) + StructMethodHandlers(h, pkg, name, methods, |methods|).out
      ensures err == old(err) + StructMethodHandlers(h, pkg, name, methods, |methods|).errs
    {
      var i := 0;
      while i < |methods|
        invariant 0 <= i <= |methods|
        invariant out == old(out) + StructMethodHandlers(h, pkg, name, methods, i).out
        invariant err == old(err) + StructMethodHandlers(h, pkg, name, methods, i).errs
      {
        GenStructMethodHandlerAt(name, methods, i, old(out), old(err));
        i := i + 1;
      }
    }

    method GenStructMethodHandlerAt(name: string, methods: seq<Func>, i: nat, ghost o: seq<Emit>, ghost e: seq<Diag>)
      requires i < |methods|
      requires out == o + StructMethodHandlers(h, pkg, name, methods, i).out
      requires err == e + StructMethodHandlers(h, pkg, name, methods, i).errs
      modifies this
      ensures out == o + StructMethodHandlers(h, pkg, name, methods, i + 1).out
      ensures err == e + StructMethodHandlers(h, pkg, name, methods, i + 1).errs
    {
      GenMethodHandler(name, methods[i], true);
      ThenAppend(o, e, StructMethodHandlers(h, pkg, name, methods, i), MethodHandler(h, pkg, name, methods[i], true));
    }

    /** The entry point of one struct or interface method. */
    method GenMethodHandler(name: string, m: Func, pointer: bool)
      modifies this
      ensures out == old(out) + MethodHandler(h, pkg, name, m, pointer).out
      ensures err == old(err) + MethodHandler(h, pkg, name, m, pointer).errs
    {
      Printf([BeginHandler(MethodProxy(name, m.name)), ReadRef(In, Self), AssertGoObject(V, Self, name, pointer)]);
      GenFuncBody(m, Receiver);
      Printf([EndBlock]);
      WrapAppend(old(out), old(err), [BeginHandler(MethodProxy(name, m.name)), ReadRef(In, Self), AssertGoObject(V, Self, name, pointer)],
                 FuncBodyStep(h, pkg, m, Receiver), [EndBlock]);
    }

    /** The init block of genStruct. */
    method GenStructInit(desc: string, name: string, fields: seq<Field>, methods: seq<Func>)
      modifies this
      ensures out == old(out) + StructInit(desc, name, fields, methods)
      ensures err == old(err)
    {
      Printf([BeginInit]);
      GenFieldRegs(desc, name, fields);
      GenStructMethodRegs(desc, name, methods);
      Printf([EndBlock]);
    }

    method GenFieldRegs(desc: string, name: string, fields: seq<Field>)
      modifies this
      ensures out == old(out) + FieldRegs(desc, name, fields, |fields|)
      ensures err == old(err)
    {
      var i := 0;
      while i < |fields|
        invariant 0 <= i <= |fields|
        invariant out == old(out) + FieldRegs(desc, name, fields, i)
        invariant err == old(err)
      {
        Printf([Register(desc, FieldSetCode(i), FieldSet(name, fields[i].name)),
                Register(desc, FieldGetCode(i), FieldGet(name, fields[i].name))]);
        AppendAssoc(old(out), FieldRegs(desc, name, fields, i),
                    [Register(desc, FieldSetCode(i), FieldSet(name, fields[i].name)),
                     Register(desc, FieldGetCode(i), FieldGet(name, fields[i].name))]);
        i := i + 1;
      }
    }

    method GenStructMethodRegs(desc: string, name: string, methods: seq<Func>)
      modifies this
      ensures out == old(out) + StructMethodRegs(desc, name, methods, |methods|)
      ensures err == old(err)
    {
      var i := 0;
      while i < |methods|
        invariant 0 <= i <= |methods|
        invariant out == old(out) + StructMethodRegs(desc, name, methods, i)
        invariant err == old(err)
      {
        Printf([Register(desc, StructMethodCode(i), MethodProxy(name, methods[i].name))]);
        AppendAssoc(old(out), StructMethodRegs(desc, name, methods, i),
                    [Register(desc, StructMethodCode(i), MethodProxy(name, methods[i].name))]);
        i := i + 1;
      }
    }

    method GenVar(name: string, t: Type)
      modifies this
      ensures out == old(out) + VarStep(h, pkg, name, t).out
      ensures err == old(err) + VarStep(h, pkg, name, t).errs
    {
      Printf([BeginHandler(VarSet(name))]);
      GenRead(V, In, t);
      Printf([StoreVar(name), EndBlock]);
      WrapAppend(old(out), old(err), [BeginHandler(VarSet(name))], ReadStep(h, pkg, V, In, t),
                 [StoreVar(name), EndBlock]);
      ghost var o1, e1 := out, err;
      Printf([BeginHandler(VarGet(name))]);
      GenWrite(PkgVar(name), Out, t);
      Printf([EndBlock]);
      WrapAppend(o1, e1, [BeginHandler(VarGet(name))], WriteStep(pkg, PkgVar(name), Out, t), [EndBlock]);
      ThenAppend(old(out), old(err),
                 Wrap([BeginHandler(VarSet(name))], ReadStep(h, pkg, V, In, t), [StoreVar(name), EndBlock]),
                 Wrap([BeginHandler(VarGet(name))], WriteStep(pkg, PkgVar(name), Out, t), [EndBlock]));
    }

    /** genInterface: constants, entry points and init block of the callable methods;
        then, for an implementable interface, the proxy type and its forwarders. */
    method GenInterface(name: string, iface: Type)
      requires iface.Iface?
      modifies this
      ensures out == old(out) + InterfaceStep(h, pkg, name, iface).out
      ensures err == old(err) + InterfaceStep(h, pkg, name, iface).errs
    {
      var desc := TypeDescriptor(pkg, name);
      var summary := h.makeIfaceSummary(iface);
      GenIfaceFront(name, desc, summary.callable);
      if !summary.implementable {
        return;
      }
      GenProxy(name, desc, iface.methods);
      ThenAppend(old(out), old(err), IfaceFront(h, pkg, name, desc, summary.callable),
                 ProxyStep(h, pkg, name, desc, iface.methods));
    }

    method GenIfaceFront(name: string, desc: string, callable: seq<Func>)
      modifies this
      ensures out == old(out) + IfaceFront(h, pkg, name, desc, callable).out
      ensures err == old(err) + IfaceFront(h, pkg, name, desc, callable).errs
    {
      GenIfaceHead(name, desc, callable);
      GenIfaceInit(desc, name, callable);
      ThenAppend(old(out), old(err), IfaceHead(h, pkg, name, desc, callable), Emits(IfaceInit(desc, name, callable)));
    }

    method GenIfaceHead(name: string, desc: string, callable: seq<Func>)
      modifies this
      ensures out == old(out) + IfaceHead(h, pkg, name, desc, callable).out
      ensures err == old(err) + IfaceHead(h, pkg, name, desc, callable).errs
    {
      GenIfaceConsts(name, desc, callable);
      GenIfaceMethodHandlers(name, callable);
      ThenAppend(old(out), old(err), Emits(IfaceConsts(name, desc, callable)),
                 IfaceMethodHandlers(h, pkg, name, callable, |callable|));
    }

    /** The proxy type and its forwarding methods. */
    method GenProxy(name: string, desc: string, ms: seq<Func>)
      modifies this
      ensures out == old(out) + ProxyStep(h, pkg, name, desc, ms).out
      ensures err == old(err) + ProxyStep(h, pkg, name, desc, ms).errs
    {
      Printf([RefType(name)]);
      GenForwarders(name, desc, ms);
      ThenAppend(old(out), old(err), Emits([RefType(name)]), Forwarders(h, pkg, name, desc, ms, |ms|));
    }

    /** The descriptor and the code of every callable method. */
    method GenIfaceConsts(name: string, desc: string, callable: seq<Func>)
      modifies this
      ensures out == old(out) + IfaceConsts(name, desc, callable)
      ensures err == old(err)
    {
      Printf([DescriptorConst(name, desc)]);
      ghost var o1 := out;
      var i := 0;
      while i < |callable|
        invariant 0 <= i <= |callable|
        invariant out == o1 + IfaceCodeConsts(name, callable, i)
        invariant err == old(err)
      {
        Printf([CodeConst(MethodProxy(name, callable[i].name), IfaceMethodCode(i))]);
        AppendAssoc(o1, IfaceCodeConsts(name, callable, i),
                    [CodeConst(MethodProxy(name, callable[i].name), IfaceMethodCode(i))]);
        i := i + 1;
      }
    }

    /** The entry point of every callable method, in order. */
    method GenIfaceMethodHandlers(name: string, callable: seq<Func>)
      modifies this
      ensures out == old(out) + IfaceMethodHandlers(h, pkg, name, callable, |callable|).out
      ensures err == old(err) + IfaceMethodHandlers(h, pkg, name, callable, |callable|).errs
    {
      var i := 0;
      while i < |callable|
        invariant 0 <= i <= |callable|
        invariant out == old(out) + IfaceMethodHandlers(h, pkg, name, callable, i).out
        invariant err == old(err) + IfaceMethodHandlers(h, pkg, name, callable, i).errs
      {
        GenIfaceMethodHandlerAt(name, callable, i, old(out), old(err));
        i := i + 1;
      }
    }

    method GenIfaceMethodHandlerAt(name: string, callable: seq<Func>, i: nat, ghost o: seq<Emit>, ghost e: seq<Diag>)
      requires i < |callable|
      requires out == o + IfaceMethodHandlers(h, pkg, name, callable, i).out
      requires err == e + IfaceMethodHandlers(h, pkg, name, callable, i).errs
      modifies this
      ensures out == o + IfaceMethodHandlers(h, pkg, name, callable, i + 1).out
      ensures err == e + IfaceMethodHandlers(h, pkg, name, callable, i + 1).errs
    {
      GenMethodHandler(name, callable[i], false);
      ThenAppend(o, e, IfaceMethodHandlers(h, pkg, name, callable, i), MethodHandler(h, pkg, name, callable[i], false));
    }

    /** The init block registering the callable methods, if there are any. */
    method GenIfaceInit(desc: string, name: string, callable: seq<Func>)
      modifies this
      ensures out == old(out) + IfaceInit(desc, name, callable)
      ensures err == old(err)
    {
      if |callable| > 0 {
        Printf([BeginInit]);
        ghost var o1 := out;
        var i := 0;
        while i < |callable|
          invariant 0 <= i <= |callable|
          invariant out == o1 + IfaceRegs(desc, name, callable, i)
          invariant err == old(err)
        {
          Printf([Register(desc, IfaceMethodCode(i), MethodProxy(name, callable[i].name))]);
          AppendAssoc(o1, IfaceRegs(desc, name, callable, i),
                      [Register(desc, IfaceMethodCode(i), MethodProxy(name, callable[i].name))]);
          i := i + 1;
        }
        Printf([EndBlock]);
      }
    }

    /** The forwarding method of every method of the interface, in order. */
    method GenForwarders(name: string, desc: string, ms: seq<Func>)
      modifies this
      ensures out == old(out) + Forwarders(h, pkg, name, desc, ms, |ms|).out
      ensures err == old(err) + Forwarders(h, pkg, name, desc, ms, |ms|).errs
    {
      var i := 0;
      while i < |ms|
        invariant 0 <= i <= |ms|
        invariant out == old(out) + Forwarders(h, pkg, name, desc, ms, i).out
        invariant err == old(err) + Forwarders(h, pkg, name, desc, ms, i).errs
      {
        GenForwarderAt(name, desc, ms, i, old(out), old(err));
        i := i + 1;
      }
    }

    method GenForwarderAt(name: string, desc: string, ms: seq<Func>, i: nat, ghost o: seq<Emit>, ghost e: seq<Diag>)
      requires i < |ms|
      requires out == o + Forwarders(h, pkg, name, desc, ms, i).out
      requires err == e + Forwarders(h, pkg, name, desc, ms, i).errs
      modifies this
      ensures out == o + Forwarders(h, pkg, name, desc, ms, i + 1).out
      ensures err == e + Forwarders(h, pkg, name, desc, ms, i + 1).errs
    {
      GenForward(name, desc, ms[i]);
      ThenAppend(o, e, Forwarders(h, pkg, name, desc, ms, i), ForwardStep(h, pkg, name, desc, ms[i]));
    }

    /** One forwarding method: rejected return shapes are reported and skipped. */
    method GenForward(name: string, desc: string, m: Func)
      modifies this
      ensures out == old(out) + ForwardStep(h, pkg, name, desc, m).out
      ensures err == old(err) + ForwardStep(h, pkg, name, desc, m).errs
    {
      var res := m.results;
      if |res| > 2 || (|res| == 2 && !IsErrorType(res[1])) {
        Errorf(BadMethodReturnArity(name, m.name));
        return;
      }
      GenSignature(name, m);
      GenForwardBody(name, desc, m);
      ThenAppend(old(out), old(err), Step([BeginForward(name, m.name)], SignatureErrors(pkg, m)),
                 ForwardBody(h, pkg, name, desc, m));
      Printf([EndBlock]);
      ThenAppend(old(out), old(err),
                 Then(Step([BeginForward(name, m.name)], SignatureErrors(pkg, m)), ForwardBody(h, pkg, name, desc, m)),
                 Emits([EndBlock]));
    }

    /** The signature line of a forwarding method: typeString of every parameter and of
        the first result. */
    method GenSignature(name: string, m: Func)
      modifies this
      ensures out == old(out) + [BeginForward(name, m.name)]
      ensures err == old(err) + SignatureErrors(pkg, m)
    {
      Printf([BeginForward(name, m.name)]);
      var params := m.params;
      var i := 0;
      while i < |params|
        invariant 0 <= i <= |params|
        invariant out == old(out) + [BeginForward(name, m.name)]
        invariant err == old(err) + ParamTypeStringErrors(pkg, params, i)
      {
        TypeString(params[i]);
        AppendAssoc(old(err), ParamTypeStringErrors(pkg, params, i), TypeStringErrors(pkg, params[i]));
        i := i + 1;
      }
      if |m.results| >= 1 {
        TypeString(m.results[0]);
      }
      AppendAssoc(old(err), ParamTypeStringErrors(pkg, params, |params|),
                  if |m.results| >= 1 then TypeStringErrors(pkg, m.results[0]) else []);
    }

    /** A fresh buffer, the parameter writes, and the transaction. */
    method GenForwardBody(name: string, desc: string, m: Func)
      modifies this
      ensures out == old(out) + ForwardBody(h, pkg, name, desc, m).out
      ensures err == old(err) + ForwardBody(h, pkg, name, desc, m).errs
    {
      Printf([NewBuffer]);
      GenWriteParams(m.params);
      ThenAppend(old(out), old(err), Emits([NewBuffer]), WriteParams(pkg, m.params, |m.params|));
      GenTransact(name, desc, m);
      ThenAppend(old(out), old(err), Then(Emits([NewBuffer]), WriteParams(pkg, m.params, |m.params|)),
                 TransactStep(h, pkg, name, desc, m));
    }

    method GenWriteParams(params: seq<Type>)
      modifies this
      ensures out == old(out) + WriteParams(pkg, params, |params|).out
      ensures err == old(err) + WriteParams(pkg, params, |params|).errs
    {
      var i := 0;
      while i < |params|
        invariant 0 <= i <= |params|
        invariant out == old(out) + WriteParams(pkg, params, i).out
        invariant err == old(err) + WriteParams(pkg, params, i).errs
      {
        GenWriteParamAt(params, i, old(out), old(err));
        i := i + 1;
      }
    }

    method GenWriteParamAt(params: seq<Type>, i: nat, ghost o: seq<Emit>, ghost e: seq<Diag>)
      requires i < |params|
      requires out == o + WriteParams(pkg, params, i).out
      requires err == e + WriteParams(pkg, params, i).errs
      modifies this
      ensures out == o + WriteParams(pkg, params, i + 1).out
      ensures err == e + WriteParams(pkg, params, i + 1).errs
    {
      GenWrite(Param(i), In, params[i]);
      ThenAppend(o, e, WriteParams(pkg, params, i), WriteStep(pkg, Param(i), In, params[i]));
    }

    /** The transaction, and the reads of the results when there are any. */
    method GenTransact(name: string, desc: string, m: Func)
      modifies this
      ensures out == old(out) + TransactStep(h, pkg, name, desc, m).out
      ensures err == old(err) + TransactStep(h, pkg, name, desc, m).errs
    {
      var res := m.results;
      if |res| == 0 {
        Printf([Transact(desc, MethodProxy(name, m.name), false)]);
      } else {
        Printf([Transact(desc, MethodProxy(name, m.name), true)]);
        GenReadResults(res);
        Printf([Return(|res|)]);
        WrapAppend(old(out), old(err), [Transact(desc, MethodProxy(name, m.name), true)],
                   ReadResults(h, pkg, res, |res|), [Return(|res|)]);
      }
    }

    method GenReadResults(res: seq<Type>)
      modifies this
      ensures out == old(out) + ReadResults(h, pkg, res, |res|).out
      ensures err == old(err) + ReadResults(h, pkg, res, |res|).errs
    {
      var i := 0;
      while i < |res|
        invariant 0 <= i <= |res|
        invariant out == old(out) + ReadResults(h, pkg, res, i).out
        invariant err == old(err) + ReadResults(h, pkg, res, i).errs
      {
        GenReadResultAt(res, i, old(out), old(err));
        i := i + 1;
      }
    }

    method GenReadResultAt(res: seq<Type>, i: nat, ghost o: seq<Emit>, ghost e: seq<Diag>)
      requires i < |res|
      requires out == o + ReadResults(h, pkg, res, i).out
      requires err == e + ReadResults(h, pkg, res, i).errs
      modifies this
      ensures out == o + ReadResults(h, pkg, res, i + 1).out
      ensures err == e + ReadResults(h, pkg, res, i + 1).errs
    {
      GenRead(ResAt(i), Out, res[i]);
      ThenAppend(o, e, ReadResults(h, pkg, res, i), ReadStep(h, pkg, ResAt(i), Out, res[i]));
    }

    /** gen: the preamble, the walk over the scope's names, the check that something is
        exported, the init blocks; the result is the diagnostic list when it is not empty. */
    method Gen(names: seq<Object>) returns (result: Option<seq<Diag>>)
      modifies this
      ensures out == old(out) + GenStep(h, pkg, names).out
      ensures err == old(err) + GenStep(h, pkg, names).errs
      ensures result.Some? <==> |err| > 0
      ensures result.Some? ==> result.value == err
    {
      GenStream(names);
      if |err| > 0 {
        result := Some(err);
      } else {
        result := None;
      }
    }

    /** What gen prints and records: the preamble, then the rest of the run. */
    method GenStream(names: seq<Object>)
      modifies this
      ensures out == old(out) + GenStep(h, pkg, names).out
      ensures err == old(err) + GenStep(h, pkg, names).errs
    {
      Printf([Preamble(pkg)]);
      GenAfterPreamble(names);
      ThenAppend(old(out), old(err), Emits([Preamble(pkg)]), GenBody(h, pkg, names));
    }

    method GenAfterPreamble(names: seq<Object>)
      modifies this
      ensures out == old(out) + GenBody(h, pkg, names).out
      ensures err == old(err) + GenBody(h, pkg, names).errs
    {
      var funcs, vars := GenCheckedWalk(names);
      GenInitBlocks(funcs, vars);
      ThenAppend(old(out), old(err), CheckedWalk(h, pkg, names), Emits(GenInits(pkg, funcs, vars)));
    }

    /** The walk, then the diagnostic for a package that exports nothing. */
    method GenCheckedWalk(names: seq<Object>) returns (funcs: seq<string>, vars: seq<string>)
      modifies this
      ensures out == old(out) + CheckedWalk(h, pkg, names).out
      ensures err == old(err) + CheckedWalk(h, pkg, names).errs
      ensures funcs == CollectedFuncs(h, names, |names|) && vars == CollectedVars(names, |names|)
    {
      var hasExported;
      funcs, vars, hasExported := GenWalk(names);
      if !hasExported {
        Errorf(NoExportedNames(pkg.path));
      }
      ThenAppend(old(out), old(err), WalkStep(h, pkg, names, |names|), ExportCheck(pkg, names));
    }

    /** gen's loop over the scope's names, collecting the generated functions and
        variables and whether any name is exported. */
    method GenWalk(names: seq<Object>) returns (funcs: seq<string>, vars: seq<string>, hasExported: bool)
      modifies this
      ensures out == old(out) + WalkStep(h, pkg, names, |names|).out
      ensures err == old(err) + WalkStep(h, pkg, names, |names|).errs
      ensures funcs == CollectedFuncs(h, names, |names|) && vars == CollectedVars(names, |names|)
      ensures hasExported == AnyExported(names, |names|)
    {
      funcs, vars, hasExported := [], [], false;
      var i := 0;
      while i < |names|
        invariant 0 <= i <= |names|
        invariant out == old(out) + WalkStep(h, pkg, names, i).out
        invariant err == old(err) + WalkStep(h, pkg, names, i).errs
        invariant funcs == CollectedFuncs(h, names, i) && vars == CollectedVars(names, i)
        invariant hasExported == AnyExported(names, i)
      {
        funcs, vars, hasExported := GenName(names, i, old(out), old(err), funcs, vars, hasExported);
        i := i + 1;
      }
    }

    /** One iteration of gen's walk: an unexported name is skipped; an exported one is
        generated, and collected when it is a callable function or a variable. */
    method GenName(names: seq<Object>, i: nat, ghost o: seq<Emit>, ghost e: seq<Diag>,
                   funcs0: seq<string>, vars0: seq<string>, hasExported0: bool)
      returns (funcs: seq<string>, vars: seq<string>, hasExported: bool)
      requires i < |names|
      requires out == o + WalkStep(h, pkg, names, i).out
      requires err == e + WalkStep(h, pkg, names, i).errs
      requires funcs0 == CollectedFuncs(h, names, i) && vars0 == CollectedVars(names, i)
      requires hasExported0 == AnyExported(names, i)
      modifies this
      ensures out == o + WalkStep(h, pkg, names, i + 1).out
      ensures err == e + WalkStep(h, pkg, names, i + 1).errs
      ensures funcs == CollectedFuncs(h, names, i + 1) && vars == CollectedVars(names, i + 1)
      ensures hasExported == AnyExported(names, i + 1)
    {
      var obj := names[i];
      funcs, vars, hasExported := funcs0, vars0, hasExported0;
      if obj.exported {
        hasExported := true;
        var fs, vs := GenDecl(obj);
        funcs := funcs + fs;
        vars := vars + vs;
      }
      ThenAppend(o, e, WalkStep(h, pkg, names, i), NameStep(h, pkg, obj));
    }

    /** gen's switch on one exported object; returns the names it adds to the collected
        functions and variables. */
    method GenDecl(obj: Object) returns (fs: seq<string>, vs: seq<string>)
      modifies this
      ensures out == old(out) + DeclStep(h, pkg, obj).out
      ensures err == old(err) + DeclStep(h, pkg, obj).errs
      ensures fs == (if obj.kind.FuncObj? && h.isCallable(FuncOf(obj)) then [obj.name] else [])
      ensures vs == (if obj.kind.VarObj? then [obj.name] else [])
    {
      fs, vs := [], [];
      match obj.kind {
        case FuncObj(_, _) =>
          if h.isCallable(FuncOf(obj)) {
            GenFunc(FuncOf(obj));
            fs := [obj.name];
          }
        case TypeNameObj(u) =>
          GenTypeDecl(obj.name, u);
        case VarObj(t) =>
          GenVar(obj.name, t);
          vs := [obj.name];
        case ConstObj =>
        case OtherObj =>
          Errorf(NameNotYetSupported(obj.name));
      }
    }

    /** A named type of the scope: a struct or an interface is generated. */
    method GenTypeDecl(name: string, u: Type)
      modifies this
      ensures out == old(out) + TypeDeclStep(h, pkg, name, u).out
      ensures err == old(err) + TypeDeclStep(h, pkg, name, u).errs
    {
      if u.Struct? {
        GenStruct(name, u);
      } else if u.Iface? {
        GenInterface(name, u);
      }
    }

    /** The init blocks of the collected functions and variables. */
    method GenInitBlocks(funcs: seq<string>, vars: seq<string>)
      modifies this
      ensures out == old(out) + GenInits(pkg, funcs, vars)
      ensures err == old(err)
    {
      GenFuncInit(funcs);
      GenVarInit(vars);
      AppendAssoc(old(out), InitBlock(FuncRegs(pkg, funcs, |funcs|), |funcs| > 0),
                  InitBlock(VarRegs(pkg, vars, |vars|), |vars| > 0));
    }

    /** Registration of the collected functions, if there are any. */
    method GenFuncInit(funcs: seq<string>)
      modifies this
      ensures out == old(out) + InitBlock(FuncRegs(pkg, funcs, |funcs|), |funcs| > 0)
      ensures err == old(err)
    {
      if |funcs| > 0 {
        Printf([BeginInit]);
        ghost var o1 := out;
        var i := 0;
        while i < |funcs|
          invariant 0 <= i <= |funcs|
          invariant out == o1 + FuncRegs(pkg, funcs, i)
          invariant err == old(err)
        {
          Printf([Register(pkg.name, i + 1, FuncProxy(funcs[i]))]);
          AppendAssoc(o1, FuncRegs(pkg, funcs, i), [Register(pkg.name, i + 1, FuncProxy(funcs[i]))]);
          i := i + 1;
        }
        Printf([EndBlock]);
      }
    }

    /** Registration of the setter and getter of the collected variables, if there are any. */
    method GenVarInit(vars: seq<string>)
      modifies this
      ensures out == old(out) + InitBlock(VarRegs(pkg, vars, |vars|), |vars| > 0)
      ensures err == old(err)
    {
      if |vars| > 0 {
        Printf([BeginInit]);
        ghost var o1 := out;
        var i := 0;
        while i < |vars|
          invariant 0 <= i <= |vars|
          invariant out == o1 + VarRegs(pkg, vars, i)
          invariant err == old(err)
        {
          var regs := [Register(VarDescriptor(pkg, vars[i]), VarSetCode, VarSet(vars[i])),
                       Register(VarDescriptor(pkg, vars[i]), VarGetCode, VarGet(vars[i]))];
          Printf(regs);
          AppendAssoc(o1, VarRegs(pkg, vars, i), regs);
          i := i + 1;
        }
        Printf([EndBlock]);
      }
    }
  }
}
