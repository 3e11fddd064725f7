/** Properties of the wire reads and writes (genRead, genWrite), of typeString's
    diagnostics, and of genFuncBody's return-shape check. */
module WireProps {
  import opened GoTypes
  import opened Output
  import opened GenGo

  // ---------------------------------------------------------------------------
  // typeString

  /** typeString records at most two diagnostics: a foreign package and an unsupported
      underlying type; a pointer adds nothing of its own. */
  lemma {:induction false} TypeStringErrorsAtMostTwo(pkg: Package, t: Type)
    ensures |TypeStringErrors(pkg, t)| <= 2
  {
    match t
    case Ptr(e) =>
      if IsNamedType(e) {
        TypeStringErrorsAtMostTwo(pkg, e);
      }
    case _ =>
  }

  /** A named struct or interface of the package being bound renders without a
      diagnostic, and so does a pointer to it. */
  lemma TypeStringLocalNamed(pkg: Package, t: Type)
    requires t.Named? && t.pkg == Some(pkg) && (t.underlying.Iface? || t.underlying.Struct?)
    ensures TypeStringErrors(pkg, t) == [] && TypeStringErrors(pkg, Ptr(t)) == []
  {
  }

  /** A pointer to a pointer is not supported: the inner pointer is reported. */
  lemma TypeStringPointerToPointer(pkg: Package, t: Type)
    ensures TypeStringErrors(pkg, Ptr(Ptr(t))) == [PointerNotYetSupported(Ptr(t))]
  {
  }

  /** Universe-scope named types, `error` among them, render without diagnostics, and so
      do pointers to them. */
  lemma TypeStringUniverseNamed(pkg: Package, name: string, u: Type)
    ensures TypeStringErrors(pkg, Named(name, None, u)) == []
    ensures TypeStringErrors(pkg, Ptr(Named(name, None, u))) == []
    ensures TypeStringErrors(pkg, ErrorT) == [] && TypeStringErrors(pkg, Ptr(ErrorT)) == []
  {
  }

  // ---------------------------------------------------------------------------
  // The error type

  /** An error value is written as the empty string when nil and as its message
      otherwise. */
  lemma ErrorTypeWrite(pkg: Package, v: Val, buf: Buf)
    ensures WriteStep(pkg, v, buf, ErrorT)
            == Emits([IfNil(v, WriteString(buf, EmptyString), WriteString(buf, ErrorMessage(v)))])
  {
  }

  /** An error is read back with one ReadError. */
  lemma ErrorTypeRead(h: Helpers, pkg: Package, v: Val, buf: Buf)
    ensures ReadStep(h, pkg, v, buf, ErrorT) == Emits([ReadError(buf, v)])
  {
  }

  // ---------------------------------------------------------------------------
  // Pointers

  /** A pointer to a named type of another package cannot be written: one diagnostic,
      and no reference is written. `error` belongs to no package, so `*error` is
      rejected the same way. */
  lemma ForeignPointerWriteRejected(pkg: Package, v: Val, buf: Buf, e: Type)
    requires IsNamedType(e) && NamedPkg(e) != Some(pkg)
    ensures WriteStep(pkg, v, buf, Ptr(e)) == Fail(NotDefinedIn(e, pkg))
  {
  }

  /** Nor can it be read: one diagnostic, and no reference is read. */
  lemma ForeignPointerReadRejected(h: Helpers, pkg: Package, v: Val, buf: Buf, e: Type)
    requires IsNamedType(e) && NamedPkg(e) != Some(pkg)
    ensures ReadStep(h, pkg, v, buf, Ptr(e)) == Fail(NotDefinedIn(e, pkg))
  {
  }

  /** A pointer to a named type of the package is written as a Go object reference. */
  lemma LocalPointerWrite(pkg: Package, v: Val, buf: Buf, e: Type)
    requires e.Named? && e.pkg == Some(pkg)
    ensures WriteStep(pkg, v, buf, Ptr(e)) == Emits([WriteGoRef(buf, v)])
  {
  }

  /** ... and read as a reference that must hold a Go object of that type. */
  lemma LocalPointerRead(h: Helpers, pkg: Package, v: Val, buf: Buf, e: Type)
    requires e.Named? && e.pkg == Some(pkg)
    ensures ReadStep(h, pkg, v, buf, Ptr(e)) == Emits([ReadRef(buf, v), AssertGoObject(v, v, e.name, true)])
  {
  }

  /** A pointer to anything but a named type cannot be written, whatever the package. */
  lemma UnnamedPointerWriteRejected(pkg: Package, v: Val, buf: Buf, e: Type)
    requires !IsNamedType(e)
    ensures WriteStep(pkg, v, buf, Ptr(e)) == Fail(UnsupportedType(e))
  {
  }

  /** Nor read. */
  lemma UnnamedPointerReadRejected(h: Helpers, pkg: Package, v: Val, buf: Buf, e: Type)
    requires !IsNamedType(e)
    ensures ReadStep(h, pkg, v, buf, Ptr(e)) == Fail(UnsupportedPointer(Ptr(e)))
  {
  }

  /** `*error`: genWrite and genRead reject it as a type not defined in the package, and
      typeString renders it without a diagnostic. */
  lemma PointerToErrorRejected(h: Helpers, pkg: Package, v: Val, buf: Buf)
    ensures WriteStep(pkg, v, buf, Ptr(ErrorT)) == Fail(NotDefinedIn(ErrorT, pkg))
    ensures ReadStep(h, pkg, v, buf, Ptr(ErrorT)) == Fail(NotDefinedIn(ErrorT, pkg))
    ensures TypeStringErrors(pkg, Ptr(ErrorT)) == []
  {
  }

  // ---------------------------------------------------------------------------
  // Named types

  /** genRead of a named interface or named pointer of the package: the Go-object branch
      is always emitted, the foreign-proxy branch exactly when there is a proxy, which for
      an interface means that its summary says it is implementable. The only diagnostic
      is typeString's, which rejects a named pointer. */
  lemma ReadNamedRef(h: Helpers, pkg: Package, v: Val, buf: Buf, t: Type)
    requires t.Named? && (t.underlying.Iface? || t.underlying.Ptr?) && t.pkg == Some(pkg)
    ensures GoObjectBranch(v, t.name) in ReadStep(h, pkg, v, buf, t).out
    ensures ForeignProxyBranch(v, t.name) in ReadStep(h, pkg, v, buf, t).out
            <==> (t.underlying.Ptr? || h.makeIfaceSummary(t.underlying).implementable)
    ensures ReadStep(h, pkg, v, buf, t).errs
            == if t.underlying.Ptr? then [UnsupportedNamedTypeString(t)] else []
  {
    var s := ReadStep(h, pkg, v, buf, t);
    assert s.out == RefBranches(v, buf, t, HasProxy(h, t.underlying));
    assert s.out[2] == GoObjectBranch(v, t.name);
    if HasProxy(h, t.underlying) {
      assert s.out[3] == ForeignProxyBranch(v, t.name);
    } else {
      assert s.out == [DeclVar(v, t), ReadRef(buf, v), GoObjectBranch(v, t.name), EndIf];
    }
  }

  /** genRead checks the package of a named interface or pointer; another package's is
      rejected with one diagnostic and nothing read. */
  lemma ReadForeignNamedRejected(h: Helpers, pkg: Package, v: Val, buf: Buf, t: Type)
    requires t.Named? && (t.underlying.Iface? || t.underlying.Ptr?) && t.pkg != Some(pkg)
    ensures ReadStep(h, pkg, v, buf, t) == Fail(NotDefinedIn(t, pkg))
  {
  }

  /** genWrite does not check the package of a named interface or pointer: it writes the
      reference whatever package defines the type. */
  lemma WriteNamedSkipsPackageCheck(pkg: Package, v: Val, buf: Buf, t: Type)
    requires t.Named? && (t.underlying.Iface? || t.underlying.Ptr?)
    ensures WriteStep(pkg, v, buf, t) == Emits([WriteGoRef(buf, v)])
  {
  }

  /** Any other named type (a named struct, a named basic type, ...) cannot be written. */
  lemma OtherNamedWriteRejected(pkg: Package, v: Val, buf: Buf, t: Type)
    requires t.Named? && !t.underlying.Iface? && !t.underlying.Ptr?
    ensures WriteStep(pkg, v, buf, t) == Fail(UnsupportedDirectNamed(t))
  {
  }

  /** Nor read. */
  lemma OtherNamedReadRejected(h: Helpers, pkg: Package, v: Val, buf: Buf, t: Type)
    requires t.Named? && !t.underlying.Iface? && !t.underlying.Ptr?
    ensures ReadStep(h, pkg, v, buf, t) == Fail(UnsupportedNamed(t))
  {
  }

  /** Types the generator does not look into are written with the seq buffer's own
      write for the type, without a diagnostic. */
  lemma PlainValueWrite(pkg: Package, v: Val, buf: Buf, t: Type)
    requires t.Basic? || t.Iface? || t.Struct? || t.Other?
    ensures WriteStep(pkg, v, buf, t) == Emits([WriteValue(buf, v, t)])
  {
  }

  /** ... and read with its own read. */
  lemma PlainValueRead(h: Helpers, pkg: Package, v: Val, buf: Buf, t: Type)
    requires t.Basic? || t.Iface? || t.Struct? || t.Other?
    ensures ReadStep(h, pkg, v, buf, t) == Emits([ReadValue(buf, v, t)])
  {
  }

  /** Every type genRead accepts, genWrite accepts too. */
  lemma ReadAcceptedIsWritable(h: Helpers, pkg: Package, v: Val, buf: Buf, t: Type)
    requires ReadStep(h, pkg, v, buf, t).errs == []
    ensures WriteStep(pkg, v, buf, t).errs == []
  {
  }

  /** The converse fails: a named interface of another package is written but not
      read. */
  lemma WriteAcceptsWhatReadRejects(h: Helpers, pkg: Package, other: Package, v: Val, buf: Buf)
    requires other != pkg
    ensures var t := Named("I", Some(other), Iface([]));
            WriteStep(pkg, v, buf, t).errs == [] && ReadStep(h, pkg, v, buf, t).errs != []
  {
  }

  /** genWrite emits only buffer writes, and at most one diagnostic. */
  lemma WriteStepKinds(pkg: Package, v: Val, buf: Buf, t: Type)
    ensures forall e :: e in WriteStep(pkg, v, buf, t).out ==> IsWriteItem(e)
    ensures |WriteStep(pkg, v, buf, t).errs| <= 1
  {
  }

  /** genRead emits only buffer reads and the bindings of what was read. */
  lemma ReadStepKinds(h: Helpers, pkg: Package, v: Val, buf: Buf, t: Type)
    ensures forall e :: e in ReadStep(h, pkg, v, buf, t).out ==> IsReadItem(e)
  {
  }

  // ---------------------------------------------------------------------------
  // genFuncBody

  /** The parameter reads emit only read items. */
  lemma {:induction false} ReadParamsOnlyReads(h: Helpers, pkg: Package, ps: seq<Type>, n: nat)
    requires n <= |ps|
    ensures forall e :: e in ReadParams(h, pkg, ps, n).out ==> IsReadItem(e)
  {
    if n > 0 {
      ReadParamsOnlyReads(h, pkg, ps, n - 1);
      ReadStepKinds(h, pkg, Param(n - 1), In, ps[n - 1]);
    }
  }

  /** A rejected return shape: after the parameter reads there is exactly one more
      diagnostic, the arity one, and no call and no result write is emitted. */
  lemma FuncBodyBadArity(h: Helpers, pkg: Package, f: Func, recv: Receiver)
    requires BadArity(f.results)
    ensures var s := FuncBodyStep(h, pkg, f, recv);
            var rd := ReadParams(h, pkg, f.params, |f.params|);
            s.out == rd.out && s.errs == rd.errs + [BadReturnArity]
            && forall e :: e in s.out ==> IsReadItem(e)
  {
    ReadParamsOnlyReads(h, pkg, f.params, |f.params|);
  }

  /** An accepted return shape: the call follows the reads, and the result value is
      written before the error. */
  lemma FuncBodyValueAndError(h: Helpers, pkg: Package, f: Func, recv: Receiver)
    requires |f.results| == 2 && IsErrorType(f.results[1])
    ensures var rd := ReadParams(h, pkg, f.params, |f.params|);
            var wv := WriteStep(pkg, Res, Out, f.results[0]);
            FuncBodyStep(h, pkg, f, recv).out
            == rd.out + [Call(recv, f.name, |f.params|, true, true)] + wv.out
               + [IfNil(Err, WriteString(Out, EmptyString), WriteString(Out, ErrorMessage(Err)))]
            && FuncBodyStep(h, pkg, f, recv).errs == rd.errs + wv.errs
  {
  }

  /** A single error result: only the error is assigned and written. */
  lemma FuncBodyErrorOnly(h: Helpers, pkg: Package, f: Func, recv: Receiver)
    requires |f.results| == 1 && IsErrorType(f.results[0])
    ensures var rd := ReadParams(h, pkg, f.params, |f.params|);
            FuncBodyStep(h, pkg, f, recv).out
            == rd.out + [Call(recv, f.name, |f.params|, false, true),
                         IfNil(Err, WriteString(Out, EmptyString), WriteString(Out, ErrorMessage(Err)))]
            && FuncBodyStep(h, pkg, f, recv).errs == rd.errs
  {
    var w := IfNil(Err, WriteString(Out, EmptyString), WriteString(Out, ErrorMessage(Err)));
    var rw := ResultWrites(pkg, f.results);
    assert rw.out == [w] && rw.errs == [];
    var rd := ReadParams(h, pkg, f.params, |f.params|);
    assert rd.errs + ([] + []) == rd.errs;
  }

  /** A single non-error result: only the value is assigned and written. */
  lemma FuncBodyValueOnly(h: Helpers, pkg: Package, f: Func, recv: Receiver)
    requires |f.results| == 1 && !IsErrorType(f.results[0])
    ensures var rd := ReadParams(h, pkg, f.params, |f.params|);
            var wv := WriteStep(pkg, Res, Out, f.results[0]);
            FuncBodyStep(h, pkg, f, recv).out == rd.out + [Call(recv, f.name, |f.params|, true, false)] + wv.out
            && FuncBodyStep(h, pkg, f, recv).errs == rd.errs + wv.errs
  {
    var wv := WriteStep(pkg, Res, Out, f.results[0]);
    var rw := ResultWrites(pkg, f.results);
    assert rw.out == wv.out && rw.errs == wv.errs;
  }

  /** No result: the call alone. */
  lemma FuncBodyNoResult(h: Helpers, pkg: Package, f: Func, recv: Receiver)
    requires |f.results| == 0
    ensures var rd := ReadParams(h, pkg, f.params, |f.params|);
            FuncBodyStep(h, pkg, f, recv).out == rd.out + [Call(recv, f.name, |f.params|, false, false)]
            && FuncBodyStep(h, pkg, f, recv).errs == rd.errs
  {
    var rw := ResultWrites(pkg, f.results);
    assert rw.out == [] && rw.errs == [];
    var rd := ReadParams(h, pkg, f.params, |f.params|);
    assert rd.errs + ([] + []) == rd.errs;
  }

  // ---------------------------------------------------------------------------
  // genVar

  /** A package variable gets its setter, which reads the new value from `in` and stores
      it, then its getter, which writes the value to `out`. A variable whose type genRead
      accepts is generated without a diagnostic. */
  lemma VarSetterThenGetter(h: Helpers, pkg: Package, name: string, t: Type)
    ensures var s := VarStep(h, pkg, name, t);
            var r := ReadStep(h, pkg, V, In, t);
            var w := WriteStep(pkg, PkgVar(name), Out, t);
            s.out == [BeginHandler(VarSet(name))] + r.out + [StoreVar(name), EndBlock]
                     + [BeginHandler(VarGet(name))] + w.out + [EndBlock]
            && (forall e :: e in r.out ==> IsReadItem(e))
            && (forall e :: e in w.out ==> IsWriteItem(e))
    ensures ReadStep(h, pkg, V, In, t).errs == [] ==> VarStep(h, pkg, name, t).errs == []
  {
    ReadStepKinds(h, pkg, V, In, t);
    WriteStepKinds(pkg, PkgVar(name), Out, t);
    if ReadStep(h, pkg, V, In, t).errs == [] {
      ReadAcceptedIsWritable(h, pkg, V, In, t);
      assert WriteStep(pkg, PkgVar(name), Out, t).errs == WriteStep(pkg, V, In, t).errs;
    }
  }
}
