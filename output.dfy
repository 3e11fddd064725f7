/** What the generator produces: an append-only stream of abstract emission items (the
    printer's output, without its text), and an append-only list of diagnostics. */
module Output {
  import opened GoTypes

  /** The transport buffer a generated statement works on: `in` or `out`. */
  datatype Buf = In | Out

  /** The generated Go variables that values are read into and written from:
      parameter `index` (`param_<name>` in an entry point, the parameter's own name in a
      proxy's forwarding method), `res`, `err`, `v`, the receiver handle `ref`
      (`Self`), a proxy's `res_<index>`, and the package variable `<pkg>.<name>`. */
  datatype Val = Param(index: nat) | Res | Err | V | Self | ResAt(index: nat) | PkgVar(name: string)

  /** The left-hand side of a generated call: the package, or the receiver `v`. */
  datatype Receiver = PackageLevel | Receiver

  /** Generated entry points, keyed as their Go names are built. */
  datatype Handler =
    | FuncProxy(name: string)                        // proxy_<F>
    | FieldSet(typeName: string, field: string)      // proxy<T>_<F>_Set
    | FieldGet(typeName: string, field: string)      // proxy<T>_<F>_Get
    | MethodProxy(typeName: string, methodName: string)  // proxy<T>_<M>
    | VarSet(name: string)                           // var_set<V>
    | VarGet(name: string)                           // var_get<V>

  /** The string written for an error value: `""`, or the message of `v.Error()`. */
  datatype StringExpr = EmptyString | ErrorMessage(v: Val)

  datatype Emit =
    | Preamble(pkg: Package)
    | DescriptorConst(typeName: string, desc: string)
    | CodeConst(handler: Handler, code: int)
    | RefType(typeName: string)                   // type proxy<T> seq.Ref
    | BeginHandler(handler: Handler)              // func <handler>(out, in *seq.Buffer) {
    | BeginForward(typeName: string, methodName: string)  // func (p *proxy<T>) <M>(...) ... {
    | EndBlock
    | BeginInit                                   // func init() {
    | Register(desc: string, code: int, handler: Handler)
    | Call(recv: Receiver, name: string, arity: nat, assignsRes: bool, assignsErr: bool)
    | IfNil(v: Val, thenDo: Emit, elseDo: Emit)
    | WriteString(buf: Buf, s: StringExpr)
    | WriteGoRef(buf: Buf, v: Val)
    | WriteValue(buf: Buf, v: Val, t: Type)       // <buf>.Write<seqType(t)>(v)
    | ReadError(buf: Buf, v: Val)
    | ReadRef(buf: Buf, v: Val)
    | AssertGoObject(dst: Val, src: Val, typeName: string, pointer: bool)  // dst := src.Get().((*)<pkg>.<T>)
    | DeclVar(v: Val, t: Type)
    | GoObjectBranch(v: Val, typeName: string)    // if v_ref.Num < 0 { v = v_ref.Get().(<pkg>.<T>)
    | ForeignProxyBranch(v: Val, typeName: string)  // } else { v = (*proxy<T>)(v_ref)
    | EndIf
    | ReadValue(buf: Buf, v: Val, t: Type)        // v := <buf>.Read<seqType(t)>()
    | StoreField(typeName: string, field: string)
    | LoadField(typeName: string, field: string)
    | StoreVar(name: string)
    | NewBuffer
    | Transact(desc: string, codeOf: Handler, hasResponse: bool)
    | Return(count: nat)

  /** The diagnostics `errorf` records, one constructor per distinct message. */
  datatype Diag =
    | NotDefinedIn(t: Type, pkg: Package)
    | UnsupportedType(t: Type)
    | UnsupportedDirectNamed(t: Type)
    | BadReturnArity
    | BadMethodReturnArity(typeName: string, methodName: string)
    | UnsupportedPointer(t: Type)
    | UnsupportedNamed(t: Type)
    | UnsupportedNamedTypeString(t: Type)
    | PointerNotYetSupported(t: Type)
    | NameNotYetSupported(name: string)
    | NoExportedNames(path: string)

  /** What one generation step appends: the items it prints and the diagnostics it
      records. `Step` is the instance the generator uses. */
  datatype Appended<O, D> = Step(out: O, errs: D)
  type Step = Appended<seq<Emit>, seq<Diag>>

  function Nothing(): Step {
    Step([], [])
  }

  function Emits(items: seq<Emit>): Step {
    Step(items, [])
  }

  function Fail(d: Diag): Step {
    Step([], [d])
  }

  /** Step `a` followed by step `b`. */
  function Then(a: Step, b: Step): Step {
    Step(a.out + b.out, a.errs + b.errs)
  }

  /** A block: its opening items, a body step, and its closing items. */
  function Wrap(open: seq<Emit>, body: Step, close: seq<Emit>): Step {
    Then(Then(Emits(open), body), Emits(close))
  }

  // Composition facts the generator's proofs use to append one step at a time.

  lemma AppendAssoc<T>(a: seq<T>, b: seq<T>, c: seq<T>)
    ensures a + b + c == a + (b + c)
  {
  }

  lemma ThenAppend(o: seq<Emit>, e: seq<Diag>, a: Step, b: Step)
    ensures o + a.out + b.out == o + Then(a, b).out
    ensures e + a.errs + b.errs == e + Then(a, b).errs
  {
  }

  lemma WrapAppend(o: seq<Emit>, e: seq<Diag>, open: seq<Emit>, body: Step, close: seq<Emit>)
    ensures o + open + body.out + close == o + Wrap(open, body, close).out
    ensures e + body.errs == e + Wrap(open, body, close).errs
  {
  }

  /** Items that only read from a transport buffer or bind what was read. */
  predicate IsReadItem(e: Emit) {
    e.ReadError? || e.ReadRef? || e.AssertGoObject? || e.DeclVar? || e.GoObjectBranch?
    || e.ForeignProxyBranch? || e.EndIf? || e.ReadValue?
  }

  /** Items that only write to a transport buffer. */
  predicate IsWriteItem(e: Emit) {
    e.IfNil? || e.WriteGoRef? || e.WriteValue?
  }

  /** Items that may appear inside a handler or forwarding method, as opposed to the
      declarations around them (constants, proxy types, init blocks, the preamble). */
  predicate IsBodyItem(e: Emit) {
    !(e.Preamble? || e.DescriptorConst? || e.CodeConst? || e.RefType? || e.BeginForward?
      || e.BeginInit? || e.Register?)
  }
}
