/** Properties of gen's walk over the package scope: what is skipped, what is collected
    and in which order, the codes the collected functions and variables are registered
    with, and the diagnostic for a package that exports nothing. */
module WalkProps {
  import opened GoTypes
  import opened Output
  import opened GenGo

  // ---------------------------------------------------------------------------
  // One name

  /** Unexported names produce nothing and are not collected. */
  lemma UnexportedSkipped(h: Helpers, pkg: Package, o: Object)
    requires !o.exported
    ensures NameStep(h, pkg, o) == Nothing()
    ensures !IsCollectedFunc(h, o) && !IsCollectedVar(o)
  {
  }

  /** Constants produce nothing and are not collected. */
  lemma ConstSkipped(h: Helpers, pkg: Package, o: Object)
    requires o.kind.ConstObj?
    ensures NameStep(h, pkg, o) == Nothing()
    ensures !IsCollectedFunc(h, o) && !IsCollectedVar(o)
  {
  }

  /** A function that cannot be called from another language is skipped without a
      diagnostic and is not registered. */
  lemma NonCallableSkipped(h: Helpers, pkg: Package, o: Object)
    requires o.kind.FuncObj? && !h.isCallable(FuncOf(o))
    ensures NameStep(h, pkg, o) == Nothing()
    ensures !IsCollectedFunc(h, o)
  {
  }

  /** An exported name of any other kind is reported and the walk goes on. */
  lemma OtherKindRejected(h: Helpers, pkg: Package, o: Object)
    requires o.exported && o.kind.OtherObj?
    ensures NameStep(h, pkg, o) == Fail(NameNotYetSupported(o.name))
  {
  }

  /** A named type that is neither a struct nor an interface is skipped silently. */
  lemma OtherTypeNameSkipped(h: Helpers, pkg: Package, o: Object)
    requires o.exported && o.kind.TypeNameObj? && !o.kind.underlying.Struct? && !o.kind.underlying.Iface?
    ensures NameStep(h, pkg, o) == Nothing()
  {
  }

  // ---------------------------------------------------------------------------
  // What the walk collects

  /** The functions collected over a shorter prefix of the names come first. */
  lemma {:induction false} CollectedFuncsPrefix(h: Helpers, names: seq<Object>, i: nat, n: nat)
    requires i <= n <= |names|
    ensures CollectedFuncs(h, names, i) <= CollectedFuncs(h, names, n)
  {
    if i < n {
      CollectedFuncsPrefix(h, names, i, n - 1);
    }
  }

  /** A collected function sits in the list right after the functions collected before
      it: its position is the number of collected functions that precede it. */
  lemma CollectedFuncAt(h: Helpers, names: seq<Object>, i: nat)
    requires i < |names| && IsCollectedFunc(h, names[i])
    ensures var k := |CollectedFuncs(h, names, i)|;
            k < |CollectedFuncs(h, names, |names|)| && CollectedFuncs(h, names, |names|)[k] == names[i].name
  {
    CollectedFuncsPrefix(h, names, i + 1, |names|);
  }

  /** Only collected functions are in the list. */
  lemma {:induction false} CollectedFuncsSound(h: Helpers, names: seq<Object>, n: nat)
    requires n <= |names|
    ensures forall x :: x in CollectedFuncs(h, names, n) ==>
              exists i :: 0 <= i < n && IsCollectedFunc(h, names[i]) && names[i].name == x
  {
    if n > 0 {
      CollectedFuncsSound(h, names, n - 1);
    }
  }

  /** Walk order is kept: of two collected functions, the earlier one gets the earlier
      position. */
  lemma CollectedFuncsOrdered(h: Helpers, names: seq<Object>, i: nat, j: nat)
    requires i < j < |names| && IsCollectedFunc(h, names[i])
    ensures |CollectedFuncs(h, names, i)| < |CollectedFuncs(h, names, j)|
  {
    CollectedFuncsPrefix(h, names, i + 1, j);
  }

  lemma {:induction false} CollectedVarsPrefix(names: seq<Object>, i: nat, n: nat)
    requires i <= n <= |names|
    ensures CollectedVars(names, i) <= CollectedVars(names, n)
  {
    if i < n {
      CollectedVarsPrefix(names, i, n - 1);
    }
  }

  /** Every exported variable is collected, at the position given by the variables
      before it. */
  lemma CollectedVarAt(names: seq<Object>, i: nat)
    requires i < |names| && IsCollectedVar(names[i])
    ensures var k := |CollectedVars(names, i)|;
            k < |CollectedVars(names, |names|)| && CollectedVars(names, |names|)[k] == names[i].name
  {
    CollectedVarsPrefix(names, i + 1, |names|);
  }

  // ---------------------------------------------------------------------------
  // Registration codes

  /** Collected function `i` is registered under the package name with code `i+1`. */
  lemma {:induction false} FuncRegsAt(pkg: Package, funcs: seq<string>, n: nat)
    requires n <= |funcs|
    ensures |FuncRegs(pkg, funcs, n)| == n
    ensures forall i :: 0 <= i < n ==> FuncRegs(pkg, funcs, n)[i] == Register(pkg.name, i + 1, FuncProxy(funcs[i]))
  {
    if n > 0 {
      FuncRegsAt(pkg, funcs, n - 1);
    }
  }

  /** Collected variable `i` is registered under `<pkg>.<name>`, with set code 1 and get
      code 2. */
  lemma {:induction false} VarRegsAt(pkg: Package, vars: seq<string>, n: nat, i: nat)
    requires i < n <= |vars|
    ensures |VarRegs(pkg, vars, n)| == 2 * n
    ensures VarRegs(pkg, vars, n)[2 * i] == Register(pkg.name + "." + vars[i], 1, VarSet(vars[i]))
    ensures VarRegs(pkg, vars, n)[2 * i + 1] == Register(pkg.name + "." + vars[i], 2, VarGet(vars[i]))
  {
    if i < n - 1 {
      VarRegsAt(pkg, vars, n - 1, i);
    } else if n > 1 {
      VarRegsAt(pkg, vars, n - 1, 0);
    }
  }

  /** Every callable exported function of the scope is registered with the code given by
      its place among the collected functions, counted from 1 in walk order. */
  lemma FuncRegisteredInWalkOrder(h: Helpers, pkg: Package, names: seq<Object>, i: nat)
    requires i < |names| && IsCollectedFunc(h, names[i])
    ensures var funcs := CollectedFuncs(h, names, |names|);
            var code := |CollectedFuncs(h, names, i)| + 1;
            1 <= code <= |funcs|
            && Register(pkg.name, code, FuncProxy(names[i].name)) in GenInits(pkg, funcs, CollectedVars(names, |names|))
  {
    var funcs := CollectedFuncs(h, names, |names|);
    var k := |CollectedFuncs(h, names, i)|;
    CollectedFuncAt(h, names, i);
    FuncRegsAt(pkg, funcs, |funcs|);
    var regs := FuncRegs(pkg, funcs, |funcs|);
    assert InitBlock(regs, true)[k + 1] == regs[k];
  }

  /** No init block at all when nothing was collected. The function block, when there is
      one, comes first and opens with the registration of the first function; without
      collected functions only the variable block is emitted. */
  lemma GenInitsPresence(pkg: Package, funcs: seq<string>, vars: seq<string>)
    ensures GenInits(pkg, funcs, vars) == [] <==> funcs == [] && vars == []
    ensures |funcs| > 0 ==> |GenInits(pkg, funcs, vars)| > 1
                            && GenInits(pkg, funcs, vars)[0] == BeginInit
                            && GenInits(pkg, funcs, vars)[1] == Register(pkg.name, 1, FuncProxy(funcs[0]))
    ensures |funcs| == 0 ==> GenInits(pkg, funcs, vars) == InitBlock(VarRegs(pkg, vars, |vars|), |vars| > 0)
  {
    if |funcs| > 0 {
      FuncRegsAt(pkg, funcs, |funcs|);
    }
  }

  // ---------------------------------------------------------------------------
  // The run

  /** Whatever the scope holds, the preamble is emitted first. */
  lemma PreambleFirst(h: Helpers, pkg: Package, names: seq<Object>)
    ensures GenStep(h, pkg, names).out[0] == Preamble(pkg)
  {
  }

  /** The export check adds exactly one diagnostic when no name is exported, and none
      otherwise. */
  lemma ExportCheckAddsOne(h: Helpers, pkg: Package, names: seq<Object>)
    ensures CheckedWalk(h, pkg, names).errs
            == WalkStep(h, pkg, names, |names|).errs
               + (if AnyExported(names, |names|) then [] else [NoExportedNames(pkg.path)])
  {
  }

  /** A walk over unexported names only does nothing and collects nothing. */
  lemma {:induction false} WalkAllUnexported(h: Helpers, pkg: Package, names: seq<Object>, n: nat)
    requires n <= |names|
    requires forall i :: 0 <= i < n ==> !names[i].exported
    ensures WalkStep(h, pkg, names, n).out == [] && WalkStep(h, pkg, names, n).errs == []
    ensures CollectedFuncs(h, names, n) == [] && CollectedVars(names, n) == []
  {
    if n > 0 {
      WalkAllUnexported(h, pkg, names, n - 1);
    }
  }

  /** A package that exports nothing: the preamble, one diagnostic, and nothing else. */
  lemma NoExportedNamesOneError(h: Helpers, pkg: Package, names: seq<Object>)
    requires forall i :: 0 <= i < |names| ==> !names[i].exported
    ensures GenStep(h, pkg, names).out == [Preamble(pkg)]
    ensures GenStep(h, pkg, names).errs == [NoExportedNames(pkg.path)]
  {
    WalkAllUnexported(h, pkg, names, |names|);
    assert !AnyExported(names, |names|);
    assert GenInits(pkg, [], []) == [];
  }
}
