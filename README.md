# The Go side of gobind's stub generator, modelled in Dafny

`gobind -lang=go` walks the exported declarations of a Go package. For each one it
writes a stub into the package `go_<pkg>`:

- Callable functions, struct field setters and getters, struct methods and callable
  interface methods each get an entry point `proxy…(out, in *seq.Buffer)`. Package
  variables get two, `var_set<V>` and `var_get<V>`, with the same parameters. An entry
  point reads its arguments from the `in` buffer, makes the call or the assignment and
  writes the results to the `out` buffer.
- An implementable interface gets a proxy type `proxy<T> seq.Ref`. Each of its methods
  with an accepted return shape gets a method on the proxy that forwards the call
  through `seq.Transact`; a method with a rejected return shape gets only a diagnostic.
- `init` blocks register every entry point with `seq.Register` under a descriptor and a
  numeric code.

Problems are collected in the generator's error list. Nothing stops the walk, and the
run fails exactly when that list is not empty.

The model follows `bind/gengo.go`:

- `types.dfy` (module `GoTypes`) gives the type shapes the generator tells apart. The
  error type, pointers, named types, interfaces, structs and basic types are distinct
  shapes; everything else is `Other`. It also holds signatures, struct fields and the
  objects of the package scope. The `bind` helpers that live in other files
  (`exportedFields`, `exportedMethodSet`, `makeIfaceSummary`, `isCallable`) are function
  values that the caller supplies.
- `output.dfy` (module `Output`) gives the printer's output as an append-only sequence
  of abstract items, and the error list as a sequence of diagnostics, one constructor
  per distinct `errorf` message. A `Step` is what one generation step appends to both.
- `gengo.dfy` (module `GenGo`) has two halves:
  - Specification functions give, for every `gen*` method, the step it appends
    (`ReadStep`, `WriteStep`, `FuncBodyStep`, `StructStep`, `VarStep`,
    `InterfaceStep`, `GenStep`, …).
  - The class `GoGen` holds the generator's state: the output `out` and the error list
    `err`. Its methods loop as the Go code does, and each is proved to append exactly
    its step and to change nothing else.
- `wire_props.dfy`, `struct_props.dfy`, `iface_props.dfy` and `walk_props.dfy` prove
  what those steps promise. They cover:
  - the type dispatch of `genRead` and `genWrite`;
  - the return-shape check;
  - the numeric codes and their registrations;
  - the conditional init blocks and proxy types;
  - what the walk collects, and in which order.

## Model

| member | source | states |
|---|---|---|
| `GenGo.GoGen.constructor` | src/golang.org/x/mobile/bind/gengo.go:14-19 | a fresh generator has empty output and no diagnostics, for the given package |
| `GenGo.GoGen.Printf` | src/golang.org/x/mobile/bind/gengo.go:14-15 | the printer appends the given items to the output and leaves the diagnostics alone |
| `GenGo.GoGen.Errorf` | src/golang.org/x/mobile/bind/gengo.go:21-23 | errorf appends exactly one diagnostic, keeps every earlier one in place and order, and leaves the output alone |
| `GenGo.GoGen.TypeString` | src/golang.org/x/mobile/bind/gengo.go:367-397 | typeString records the diagnostics `TypeStringErrors` gives and emits nothing |
| `GenGo.GoGen.GenWrite` | src/golang.org/x/mobile/bind/gengo.go:89-123 | genWrite appends exactly `WriteStep`: the error-type write, the Go reference write, the buffer's own write, or one diagnostic |
| `GenGo.GoGen.GenRead` | src/golang.org/x/mobile/bind/gengo.go:318-365 | genRead appends exactly `ReadStep`, with the foreign-proxy branch only when there is a proxy |
| `GenGo.GoGen.GenFuncBody` | src/golang.org/x/mobile/bind/gengo.go:43-87 | genFuncBody reads every parameter in order, then either records the arity diagnostic or makes the call and writes its results (`FuncBodyStep`) |
| `GenGo.GoGen.GenCall` | src/golang.org/x/mobile/bind/gengo.go:56-86 | for an accepted return shape: the call, whose assigned results follow the shape, then the result writes |
| `GenGo.GoGen.GenResultWrites` | src/golang.org/x/mobile/bind/gengo.go:81-86 | the value is written before the error; each is written only when the shape returns it |
| `GenGo.GoGen.GenFunc` | src/golang.org/x/mobile/bind/gengo.go:125-131 | the entry point `proxy_<F>` wraps the function body |
| `GenGo.GoGen.GenStruct` | src/golang.org/x/mobile/bind/gengo.go:133-193 | genStruct appends exactly `StructStep`: constants, proxy type, entry points, init block |
| `GenGo.GoGen.GenStructFront` | src/golang.org/x/mobile/bind/gengo.go:137-178 | the constant block and proxy type, then the entry points |
| `GenGo.GoGen.GenStructConsts` | src/golang.org/x/mobile/bind/gengo.go:137-150 | descriptor, field getter and setter codes, method codes, then `type proxy<T> seq.Ref`; no diagnostic |
| `GenGo.GoGen.GenFieldCodeConsts` | src/golang.org/x/mobile/bind/gengo.go:140-143 | one getter and one setter code per exported field, in field order |
| `GenGo.GoGen.GenMethodCodeConsts` | src/golang.org/x/mobile/bind/gengo.go:144-146 | one code per exported pointer method, in method order |
| `GenGo.GoGen.GenStructHandlers` | src/golang.org/x/mobile/bind/gengo.go:152-178 | the field entry points, then the method entry points |
| `GenGo.GoGen.GenFieldHandlers` | src/golang.org/x/mobile/bind/gengo.go:152-168 | a setter and a getter per field, in field order |
| `GenGo.GoGen.GenFieldHandler` | src/golang.org/x/mobile/bind/gengo.go:153-167 | the setter reads the handle and the value and stores the field; the getter loads it and writes it |
| `GenGo.GoGen.GenStructMethodHandlers` | src/golang.org/x/mobile/bind/gengo.go:170-178 | one entry point per method, in method order, with a pointer receiver |
| `GenGo.GoGen.GenMethodHandler` | src/golang.org/x/mobile/bind/gengo.go:171-177 | the entry point reads the receiver handle, asserts the receiver type, then runs the function body |
| `GenGo.GoGen.GenStructInit` | src/golang.org/x/mobile/bind/gengo.go:180-192 | the init block registers every setter, getter and method; no diagnostic |
| `GenGo.GoGen.GenFieldRegs` | src/golang.org/x/mobile/bind/gengo.go:182-186 | setter, then getter registration per field, in field order |
| `GenGo.GoGen.GenStructMethodRegs` | src/golang.org/x/mobile/bind/gengo.go:187-190 | one registration per method, in method order |
| `GenGo.GoGen.GenVar` | src/golang.org/x/mobile/bind/gengo.go:195-216 | `var_set<V>` reads and stores the variable, `var_get<V>` writes it (`VarStep`) |
| `GenGo.GoGen.GenInterface` | src/golang.org/x/mobile/bind/gengo.go:218-316 | genInterface appends exactly `InterfaceStep`; the proxy part only when the summary says implementable |
| `GenGo.GoGen.GenIfaceFront` | src/golang.org/x/mobile/bind/gengo.go:224-255 | constants, entry points and init block of the callable methods |
| `GenGo.GoGen.GenIfaceHead` | src/golang.org/x/mobile/bind/gengo.go:224-243 | the constant block, then one entry point per callable method |
| `GenGo.GoGen.GenIfaceConsts` | src/golang.org/x/mobile/bind/gengo.go:224-232 | the descriptor, then one code per callable method; no diagnostic |
| `GenGo.GoGen.GenIfaceMethodHandlers` | src/golang.org/x/mobile/bind/gengo.go:234-243 | one entry point per callable method, in order, with a non-pointer receiver |
| `GenGo.GoGen.GenIfaceInit` | src/golang.org/x/mobile/bind/gengo.go:245-255 | the init block and its registrations, only when there are callable methods |
| `GenGo.GoGen.GenProxy` | src/golang.org/x/mobile/bind/gengo.go:264-315 | the proxy type, then, for each interface method in order, its forwarding method or the arity diagnostic |
| `GenGo.GoGen.GenForwarders` | src/golang.org/x/mobile/bind/gengo.go:266-315 | every method of the interface in order, through `ForwardStep` |
| `GenGo.GoGen.GenForward` | src/golang.org/x/mobile/bind/gengo.go:267-314 | a rejected return shape records the diagnostic and emits nothing; otherwise signature, body and closing brace |
| `GenGo.GoGen.GenSignature` | src/golang.org/x/mobile/bind/gengo.go:278-292 | the signature line, and the diagnostics of typeString on every parameter and the first result |
| `GenGo.GoGen.GenForwardBody` | src/golang.org/x/mobile/bind/gengo.go:295-311 | a fresh buffer, the parameter writes, the transaction |
| `GenGo.GoGen.GenWriteParams` | src/golang.org/x/mobile/bind/gengo.go:296-298 | every parameter written into `in`, in order |
| `GenGo.GoGen.GenTransact` | src/golang.org/x/mobile/bind/gengo.go:300-311 | a transaction without response when there are no results; otherwise with response, the reads of every result and the return |
| `GenGo.GoGen.GenReadResults` | src/golang.org/x/mobile/bind/gengo.go:305-309 | every result read from `out`, in order |
| `GenGo.GoGen.Gen` | src/golang.org/x/mobile/bind/gengo.go:399-471 | gen appends exactly `GenStep`; its result is the error list exactly when that list is not empty |
| `GenGo.GoGen.GenStream` | src/golang.org/x/mobile/bind/gengo.go:399-465 | the preamble, then the checked walk and the init blocks (`GenStep`) |
| `GenGo.GoGen.GenAfterPreamble` | src/golang.org/x/mobile/bind/gengo.go:402-465 | the checked walk, then the init blocks of what it collected |
| `GenGo.GoGen.GenCheckedWalk` | src/golang.org/x/mobile/bind/gengo.go:407-443 | the walk, then the diagnostic when no name is exported; returns the collected functions and variables |
| `GenGo.GoGen.GenWalk` | src/golang.org/x/mobile/bind/gengo.go:407-440 | every scope name in order; collects callable functions and variables, and whether any name is exported |
| `GenGo.GoGen.GenName` | src/golang.org/x/mobile/bind/gengo.go:408-439 | an unexported name is skipped; an exported one marks the package as exporting and is generated |
| `GenGo.GoGen.GenDecl` | src/golang.org/x/mobile/bind/gengo.go:415-439 | the switch on the object's kind; returns the name when a callable function or a variable was generated |
| `GenGo.GoGen.GenTypeDecl` | src/golang.org/x/mobile/bind/gengo.go:424-431 | a struct or an interface is generated, any other named type skipped |
| `GenGo.GoGen.GenInitBlocks` | src/golang.org/x/mobile/bind/gengo.go:445-465 | the function init block, then the variable init block; no diagnostic |
| `GenGo.GoGen.GenFuncInit` | src/golang.org/x/mobile/bind/gengo.go:445-453 | registration of the collected functions, only when there are some |
| `GenGo.GoGen.GenVarInit` | src/golang.org/x/mobile/bind/gengo.go:455-465 | registration of the collected variables, only when there are some |
| `WireProps.TypeStringErrorsAtMostTwo` | src/golang.org/x/mobile/bind/gengo.go:367-397 | typeString records at most two diagnostics, whatever the type |
| `WireProps.TypeStringLocalNamed` | src/golang.org/x/mobile/bind/gengo.go:376-389 | a named struct or interface of the package, or a pointer to one, renders without a diagnostic |
| `WireProps.TypeStringPointerToPointer` | src/golang.org/x/mobile/bind/gengo.go:386-392 | a pointer to a pointer records "not yet supported" for the inner pointer |
| `WireProps.TypeStringUniverseNamed` | src/golang.org/x/mobile/bind/gengo.go:372-375 | a named type without a package, `error` included, renders without a diagnostic, and so does a pointer to it |
| `WireProps.ErrorTypeWrite` | src/golang.org/x/mobile/bind/gengo.go:90-96 | an error is written as `""` when nil and as its message otherwise |
| `WireProps.ErrorTypeRead` | src/golang.org/x/mobile/bind/gengo.go:319-321 | an error is read back with a single `ReadError` |
| `WireProps.ForeignPointerWriteRejected` | src/golang.org/x/mobile/bind/gengo.go:99-108 | a pointer to a named type not declared in the package (another package's, or `error`): one "not defined in" diagnostic, no write |
| `WireProps.ForeignPointerReadRejected` | src/golang.org/x/mobile/bind/gengo.go:324-331 | a pointer to a named type not declared in the package (another package's, or `error`): one "not defined in" diagnostic, no read |
| `WireProps.LocalPointerWrite` | src/golang.org/x/mobile/bind/gengo.go:103-109 | a pointer to the package's named type is written as a Go reference |
| `WireProps.LocalPointerRead` | src/golang.org/x/mobile/bind/gengo.go:326-334 | a pointer to the package's named type is read as a reference that must hold that Go type |
| `WireProps.UnnamedPointerWriteRejected` | src/golang.org/x/mobile/bind/gengo.go:110-111 | a pointer to a type that is not named (neither a declared named type nor `error`) is always rejected by genWrite with "unsupported type" |
| `WireProps.UnnamedPointerReadRejected` | src/golang.org/x/mobile/bind/gengo.go:335-336 | a pointer to a type that is not named (neither a declared named type nor `error`) is always rejected by genRead with "unsupported pointer" |
| `WireProps.PointerToErrorRejected` | src/golang.org/x/mobile/bind/gengo.go:99-108 | `*error`: genWrite and genRead record "not defined in" (error belongs to no package) and typeString records nothing |
| `WireProps.ReadNamedRef` | src/golang.org/x/mobile/bind/gengo.go:338-358 | the Go-object branch always; the foreign-proxy branch iff the underlying type is a pointer or the interface is implementable; a named pointer draws typeString's diagnostic |
| `WireProps.ReadForeignNamedRejected` | src/golang.org/x/mobile/bind/gengo.go:345-349 | genRead rejects a named interface or pointer of another package with one diagnostic |
| `WireProps.WriteNamedSkipsPackageCheck` | src/golang.org/x/mobile/bind/gengo.go:113-116 | genWrite writes a named interface or pointer as a reference, whatever its package |
| `WireProps.OtherNamedWriteRejected` | src/golang.org/x/mobile/bind/gengo.go:117-118 | any other named type is rejected by genWrite |
| `WireProps.OtherNamedReadRejected` | src/golang.org/x/mobile/bind/gengo.go:359-360 | any other named type is rejected by genRead |
| `WireProps.PlainValueWrite` | src/golang.org/x/mobile/bind/gengo.go:120-121 | other shapes use the buffer's own write, without a diagnostic |
| `WireProps.PlainValueRead` | src/golang.org/x/mobile/bind/gengo.go:362-363 | other shapes use the buffer's own read, without a diagnostic |
| `WireProps.ReadAcceptedIsWritable` | src/golang.org/x/mobile/bind/gengo.go:89-123 | every type genRead accepts without a diagnostic, genWrite accepts too |
| `WireProps.WriteAcceptsWhatReadRejects` | src/golang.org/x/mobile/bind/gengo.go:345-349 | the converse fails: a named interface of another package is written but not read |
| `WireProps.WriteStepKinds` | src/golang.org/x/mobile/bind/gengo.go:89-123 | genWrite emits only buffer writes, and at most one diagnostic |
| `WireProps.ReadStepKinds` | src/golang.org/x/mobile/bind/gengo.go:318-365 | genRead emits only buffer reads and bindings of what was read |
| `WireProps.ReadParamsOnlyReads` | src/golang.org/x/mobile/bind/gengo.go:46-49 | the parameter reads emit only read items |
| `WireProps.FuncBodyBadArity` | src/golang.org/x/mobile/bind/gengo.go:46-55 | a rejected return shape: the reads, exactly one more diagnostic, and no call and no write |
| `WireProps.FuncBodyValueAndError` | src/golang.org/x/mobile/bind/gengo.go:66-86 | two results: the call assigns both, the value is written before the error |
| `WireProps.FuncBodyErrorOnly` | src/golang.org/x/mobile/bind/gengo.go:58-62 | a single error result: only the error is assigned and written |
| `WireProps.FuncBodyValueOnly` | src/golang.org/x/mobile/bind/gengo.go:62-65 | a single non-error result: only the value is assigned and written |
| `WireProps.FuncBodyNoResult` | src/golang.org/x/mobile/bind/gengo.go:56-79 | no result: the call alone |
| `WireProps.VarSetterThenGetter` | src/golang.org/x/mobile/bind/gengo.go:195-216 | `var_set<V>` (a read from `in`, then the store) precedes `var_get<V>` (a write to `out`); a variable whose type genRead accepts draws no diagnostic |
| `StructProps.FieldCodeConstsAt` | src/golang.org/x/mobile/bind/gengo.go:140-143 | field `i` gets getter code `i*0x100+0x0f` and setter code `i*0x100+0x1f` |
| `StructProps.MethodCodeConstsAt` | src/golang.org/x/mobile/bind/gengo.go:144-146 | method `i` gets code `i*0x100+0x0c` |
| `StructProps.FieldRegsAt` | src/golang.org/x/mobile/bind/gengo.go:182-186 | field `i`'s setter, then its getter, are registered under the descriptor with their codes |
| `StructProps.StructMethodRegsAt` | src/golang.org/x/mobile/bind/gengo.go:187-190 | method `i` is registered under the descriptor with its code |
| `StructProps.StructInitAt` | src/golang.org/x/mobile/bind/gengo.go:180-192 | what each slot of the init block holds |
| `StructProps.SlotCodesDistinct` | src/golang.org/x/mobile/bind/gengo.go:141-145 | the field and method codes of one struct are pairwise distinct |
| `StructProps.StructInitCodesDistinct` | src/golang.org/x/mobile/bind/gengo.go:180-192 | the init block registers every code at most once, always under the struct's descriptor |
| `StructProps.StructRegistrationsMatchConsts` | src/golang.org/x/mobile/bind/gengo.go:137-192 | every setter, getter and method has its code constant and its registration with that code |
| `IfaceProps.IfaceCodeConstsAt` | src/golang.org/x/mobile/bind/gengo.go:228-230 | callable method `i` gets code `(i+1)*0x100+0x0a` |
| `IfaceProps.IfaceRegsAt` | src/golang.org/x/mobile/bind/gengo.go:249-252 | the callable methods are registered in order with the same codes |
| `IfaceProps.IfaceRegsDistinct` | src/golang.org/x/mobile/bind/gengo.go:245-255 | every registration, the last one included, is under the descriptor; the codes are pairwise distinct |
| `IfaceProps.IfaceInitPresence` | src/golang.org/x/mobile/bind/gengo.go:246 | an init block is emitted iff some method is callable |
| `IfaceProps.FuncBodyOnlyBodyItems` | src/golang.org/x/mobile/bind/gengo.go:43-87 | a function body emits no declarations (constants, types, init blocks) |
| `IfaceProps.NotImplementableNoProxy` | src/golang.org/x/mobile/bind/gengo.go:257-263 | not implementable: only constants, entry points and init block; no proxy type, no forwarding method |
| `IfaceProps.ForwardersCover` | src/golang.org/x/mobile/bind/gengo.go:266-315 | each method gets its forwarding method, or the arity diagnostic that names it |
| `IfaceProps.ImplementableHasProxy` | src/golang.org/x/mobile/bind/gengo.go:264-315 | implementable: the proxy type, and for each method its forwarding method or the arity diagnostic |
| `IfaceProps.ForwardBadArity` | src/golang.org/x/mobile/bind/gengo.go:272-276 | a rejected return shape is reported and skipped |
| `IfaceProps.WriteParamsOnlyWrites` | src/golang.org/x/mobile/bind/gengo.go:296-298 | the parameter writes emit only write items |
| `IfaceProps.ForwardNoResults` | src/golang.org/x/mobile/bind/gengo.go:300-301 | no results: a transaction without response and no reads |
| `IfaceProps.ForwardWithResults` | src/golang.org/x/mobile/bind/gengo.go:302-311 | with results: a transaction with response, the reads of the results, the return of all of them |
| `IfaceProps.ReadResultsInOrder` | src/golang.org/x/mobile/bind/gengo.go:305-309 | the reads of result `i` follow those of the results before it |
| `WalkProps.UnexportedSkipped` | src/golang.org/x/mobile/bind/gengo.go:410-412 | unexported names produce nothing and are not collected |
| `WalkProps.ConstSkipped` | src/golang.org/x/mobile/bind/gengo.go:435 | constants produce nothing and are not collected |
| `WalkProps.NonCallableSkipped` | src/golang.org/x/mobile/bind/gengo.go:417-423 | a non-callable function is skipped without a diagnostic and not registered |
| `WalkProps.OtherKindRejected` | src/golang.org/x/mobile/bind/gengo.go:436-438 | any other kind of exported name is reported |
| `WalkProps.OtherTypeNameSkipped` | src/golang.org/x/mobile/bind/gengo.go:424-431 | a named type that is neither struct nor interface is skipped silently |
| `WalkProps.CollectedFuncsPrefix` | src/golang.org/x/mobile/bind/gengo.go:408-423 | functions are only appended: the list over a prefix of the names is a prefix of the list |
| `WalkProps.CollectedFuncAt` | src/golang.org/x/mobile/bind/gengo.go:420-423 | every callable exported function is collected, at the position given by those before it |
| `WalkProps.CollectedFuncsSound` | src/golang.org/x/mobile/bind/gengo.go:420-423 | only callable exported functions are collected |
| `WalkProps.CollectedFuncsOrdered` | src/golang.org/x/mobile/bind/gengo.go:408-423 | collected functions keep walk order |
| `WalkProps.CollectedVarAt` | src/golang.org/x/mobile/bind/gengo.go:432-434 | every exported variable is collected, at the position given by those before it |
| `WalkProps.FuncRegsAt` | src/golang.org/x/mobile/bind/gengo.go:448-450 | collected function `i` is registered under the package name with code `i+1` |
| `WalkProps.VarRegsAt` | src/golang.org/x/mobile/bind/gengo.go:458-462 | variable `i` is registered under `<pkg>.<name>` with set code 1 and get code 2 |
| `WalkProps.FuncRegisteredInWalkOrder` | src/golang.org/x/mobile/bind/gengo.go:445-453 | each callable exported function is registered with code 1 + the number of collected functions before it |
| `WalkProps.GenInitsPresence` | src/golang.org/x/mobile/bind/gengo.go:445-465 | no init block when nothing was collected; with functions, the output opens with the function block and its first registration (code 1); without functions, it is exactly the variable block |
| `WalkProps.PreambleFirst` | src/golang.org/x/mobile/bind/gengo.go:400 | the preamble is always emitted first |
| `WalkProps.ExportCheckAddsOne` | src/golang.org/x/mobile/bind/gengo.go:441-443 | the export check adds exactly one diagnostic when nothing is exported, none otherwise |
| `WalkProps.WalkAllUnexported` | src/golang.org/x/mobile/bind/gengo.go:408-412 | a walk over unexported names emits, reports and collects nothing |
| `WalkProps.NoExportedNamesOneError` | src/golang.org/x/mobile/bind/gengo.go:399-470 | a package that exports nothing yields the preamble and exactly one diagnostic |

## Left out

- Text. The preamble template, the `Printf` strings, indentation and the exact spelling
  of generated identifiers are not modelled. The output is a sequence of abstract items
  that keep what the text depends on: the names, the codes, the descriptors, the buffer
  and the variable.
- `typeString`'s rendered string (`types.TypeString`). Only the diagnostics it records
  are modelled.
- `go/types` and `go/token`: parsing, scopes, the file set and package identity.
  - A package is a value (name, path), and `Obj().Pkg() != g.pkg` is inequality of
    `Option<Package>` values.
  - The scope's names arrive as a sequence of objects with `Exported()` already decided.
- The helpers from other files of `bind` (`exportedFields`, `exportedMethodSet`,
  `makeIfaceSummary`, `isCallable`) are functions supplied by the caller.
  - `isErrorType` is the `ErrorT` shape.
  - `seqType` and `paramName` are not needed: items carry the type and the parameter index.
- The run-time behaviour of the generated code is not modelled: the `seq` runtime,
  `Transact`, the `Register` table and the sign of `Ref.Num`.
- `Gen` returns the diagnostic list itself (`Option<seq<Diag>>`) rather than an `error`
  value wrapping it.
- Behaviours of the code that a reader might not expect, modelled as written:
  - The default arms of genWrite and genRead use the buffer's own write or read, with no
    diagnostic, for every shape they do not single out.
  - A package with no exported names still gets its preamble; only the diagnostic is
    added.
  - genRead of a named type whose underlying type is a pointer emits both branches and
    also records typeString's "unsupported named type" diagnostic.
