/** Properties of genInterface: method codes, the conditional init block, the proxy type
    that only implementable interfaces get, and the shape of each forwarding method. */
module IfaceProps {
  import opened GoTypes
  import opened Output
  import opened GenGo
  import opened WireProps

  // ---------------------------------------------------------------------------
  // Codes and registrations

  /** Callable method `i` gets code `(i+1)*0x100+0x0a` in the constant block. */
  lemma {:induction false} IfaceCodeConstsAt(name: string, callable: seq<Func>, n: nat, i: nat)
    requires i < n <= |callable|
    ensures |IfaceCodeConsts(name, callable, n)| == n
    ensures IfaceCodeConsts(name, callable, n)[i]
            == CodeConst(MethodProxy(name, callable[i].name), (i + 1) * 0x100 + 0x0a)
  {
    if i < n - 1 {
      IfaceCodeConstsAt(name, callable, n - 1, i);
    } else if n > 1 {
      IfaceCodeConstsAt(name, callable, n - 1, 0);
    }
  }

  /** The registrations of the init block, in method order, with the same codes. */
  lemma {:induction false} IfaceRegsAt(desc: string, name: string, callable: seq<Func>, n: nat)
    requires n <= |callable|
    ensures |IfaceRegs(desc, name, callable, n)| == n
    ensures forall i :: 0 <= i < n ==>
              IfaceRegs(desc, name, callable, n)[i]
              == Register(desc, (i + 1) * 0x100 + 0x0a, MethodProxy(name, callable[i].name))
  {
    if n > 0 {
      IfaceRegsAt(desc, name, callable, n - 1);
    }
  }

  /** The init block registers every callable method once, under the interface's
      descriptor, with pairwise distinct codes. */
  lemma IfaceRegsDistinct(desc: string, name: string, callable: seq<Func>)
    ensures var regs := IfaceRegs(desc, name, callable, |callable|);
            forall p :: 0 <= p < |regs| ==> regs[p].Register? && regs[p].desc == desc
    ensures var regs := IfaceRegs(desc, name, callable, |callable|);
            forall p, q :: 0 <= p < q < |regs| ==> regs[p].code != regs[q].code
  {
    IfaceRegsAt(desc, name, callable, |callable|);
  }

  /** An init block is emitted exactly when some method is callable. */
  lemma IfaceInitPresence(desc: string, name: string, callable: seq<Func>)
    ensures BeginInit in IfaceInit(desc, name, callable) <==> |callable| > 0
  {
    var regs := IfaceRegs(desc, name, callable, |callable|);
    if |callable| > 0 {
      assert IfaceInit(desc, name, callable)[0] == BeginInit;
    }
  }

  // ---------------------------------------------------------------------------
  // Interfaces without a proxy

  /** A function body (parameter reads, call, result writes) emits no declarations. */
  lemma FuncBodyOnlyBodyItems(h: Helpers, pkg: Package, f: Func, recv: Receiver)
    ensures forall e :: e in FuncBodyStep(h, pkg, f, recv).out ==> IsBodyItem(e)
  {
    ReadParamsOnlyReads(h, pkg, f.params, |f.params|);
    if !BadArity(f.results) && |f.results| > 0 {
      WriteStepKinds(pkg, Res, Out, f.results[0]);
      WriteStepKinds(pkg, Err, Out, f.results[|f.results| - 1]);
    }
  }

  /** No proxy type and no forwarding method among `s`. */
  predicate NoProxyItems(s: seq<Emit>) {
    forall e :: e in s ==> !e.RefType? && !e.BeginForward?
  }

  lemma {:induction false} IfaceMethodHandlersNoProxy(h: Helpers, pkg: Package, name: string,
                                                      callable: seq<Func>, n: nat)
    requires n <= |callable|
    ensures NoProxyItems(IfaceMethodHandlers(h, pkg, name, callable, n).out)
  {
    if n > 0 {
      IfaceMethodHandlersNoProxy(h, pkg, name, callable, n - 1);
      FuncBodyOnlyBodyItems(h, pkg, callable[n - 1], Receiver);
    }
  }

  lemma {:induction false} IfaceCodeConstsOnlyConsts(name: string, callable: seq<Func>, n: nat)
    requires n <= |callable|
    ensures forall e :: e in IfaceCodeConsts(name, callable, n) ==> e.CodeConst?
  {
    if n > 0 {
      IfaceCodeConstsOnlyConsts(name, callable, n - 1);
    }
  }

  /** The constant block and the init block of an interface hold only constants and
      registrations. */
  lemma IfaceDeclsNoProxy(desc: string, name: string, callable: seq<Func>)
    ensures NoProxyItems(IfaceConsts(name, desc, callable))
    ensures NoProxyItems(IfaceInit(desc, name, callable))
  {
    IfaceRegsAt(desc, name, callable, |callable|);
    IfaceCodeConstsOnlyConsts(name, callable, |callable|);
  }

  /** An interface that is not implementable gets no proxy type and no forwarding
      method: what is emitted is exactly the constants, entry points and init block. */
  lemma NotImplementableNoProxy(h: Helpers, pkg: Package, name: string, iface: Type)
    requires iface.Iface? && !h.makeIfaceSummary(iface).implementable
    ensures var s := InterfaceStep(h, pkg, name, iface);
            s == IfaceFront(h, pkg, name, TypeDescriptor(pkg, name), h.makeIfaceSummary(iface).callable)
            && forall e :: e in s.out ==> !e.RefType? && !e.BeginForward?
  {
    var desc := TypeDescriptor(pkg, name);
    var callable := h.makeIfaceSummary(iface).callable;
    IfaceMethodHandlersNoProxy(h, pkg, name, callable, |callable|);
    IfaceDeclsNoProxy(desc, name, callable);
    var consts := IfaceConsts(name, desc, callable);
    var handlers := IfaceMethodHandlers(h, pkg, name, callable, |callable|).out;
    var init := IfaceInit(desc, name, callable);
    assert IfaceFront(h, pkg, name, desc, callable).out == consts + handlers + init;
  }

  // ---------------------------------------------------------------------------
  // Implementable interfaces

  /** `s` holds the forwarding method for `m`, or the diagnostic that rejects it. */
  predicate Covers(s: Step, name: string, m: Func) {
    (BadArity(m.results) ==> BadMethodReturnArity(name, m.name) in s.errs)
    && (!BadArity(m.results) ==> BeginForward(name, m.name) in s.out)
  }

  lemma CoversThen(a: Step, b: Step, name: string, m: Func)
    requires Covers(a, name, m) || Covers(b, name, m)
    ensures Covers(Then(a, b), name, m)
  {
  }

  /** A forwarding method opens with its signature; a rejected one is only its
      diagnostic. */
  lemma ForwardStepCovers(h: Helpers, pkg: Package, name: string, desc: string, m: Func)
    ensures Covers(ForwardStep(h, pkg, name, desc, m), name, m)
  {
    if !BadArity(m.results) {
      assert ForwardStep(h, pkg, name, desc, m).out[0] == BeginForward(name, m.name);
    }
  }

  /** Every method of an implementable interface gets a forwarding method, unless its
      return shape is rejected, in which case the arity diagnostic names it. */
  lemma {:induction false} ForwardersCover(h: Helpers, pkg: Package, name: string, desc: string, ms: seq<Func>, n: nat)
    requires n <= |ms|
    ensures forall i :: 0 <= i < n ==> Covers(Forwarders(h, pkg, name, desc, ms, n), name, ms[i])
  {
    if n > 0 {
      var prev := Forwarders(h, pkg, name, desc, ms, n - 1);
      var last := ForwardStep(h, pkg, name, desc, ms[n - 1]);
      ForwardersCover(h, pkg, name, desc, ms, n - 1);
      ForwardStepCovers(h, pkg, name, desc, ms[n - 1]);
      forall i | 0 <= i < n
        ensures Covers(Then(prev, last), name, ms[i])
      {
        CoversThen(prev, last, name, ms[i]);
      }
    }
  }

  /** An implementable interface gets its proxy type, a forwarding method for each
      method with an accepted return shape, and a diagnostic for each other method. */
  lemma ImplementableHasProxy(h: Helpers, pkg: Package, name: string, iface: Type)
    requires iface.Iface? && h.makeIfaceSummary(iface).implementable
    ensures var s := InterfaceStep(h, pkg, name, iface);
            RefType(name) in s.out
            && forall m :: m in iface.methods ==> Covers(s, name, m)
  {
    var desc := TypeDescriptor(pkg, name);
    var front := IfaceFront(h, pkg, name, desc, h.makeIfaceSummary(iface).callable);
    var fw := Forwarders(h, pkg, name, desc, iface.methods, |iface.methods|);
    var proxy := ProxyStep(h, pkg, name, desc, iface.methods);
    ForwardersCover(h, pkg, name, desc, iface.methods, |iface.methods|);
    assert proxy.out[0] == RefType(name);
    forall m | m in iface.methods
      ensures Covers(Then(front, proxy), name, m)
    {
      var i :| 0 <= i < |iface.methods| && iface.methods[i] == m;
      CoversThen(Emits([RefType(name)]), fw, name, m);
      CoversThen(front, proxy, name, m);
    }
  }

  /** A method with a rejected return shape gets no forwarding method, only the
      diagnostic. */
  lemma ForwardBadArity(h: Helpers, pkg: Package, name: string, desc: string, m: Func)
    requires BadArity(m.results)
    ensures ForwardStep(h, pkg, name, desc, m) == Fail(BadMethodReturnArity(name, m.name))
  {
  }

  /** Parameter writes emit only write items. */
  lemma {:induction false} WriteParamsOnlyWrites(pkg: Package, ps: seq<Type>, n: nat)
    requires n <= |ps|
    ensures forall e :: e in WriteParams(pkg, ps, n).out ==> IsWriteItem(e)
  {
    if n > 0 {
      WriteParamsOnlyWrites(pkg, ps, n - 1);
      WriteStepKinds(pkg, Param(n - 1), In, ps[n - 1]);
    }
  }

  /** A forwarding method without results: the signature, a fresh buffer, the parameter
      writes and a transaction that expects no response; nothing is read back. */
  lemma ForwardNoResults(h: Helpers, pkg: Package, name: string, desc: string, m: Func)
    requires |m.results| == 0
    ensures var s := ForwardStep(h, pkg, name, desc, m);
            var wp := WriteParams(pkg, m.params, |m.params|);
            s.out == [BeginForward(name, m.name), NewBuffer] + wp.out
                     + [Transact(desc, MethodProxy(name, m.name), false), EndBlock]
            && forall e :: e in s.out ==> !IsReadItem(e)
  {
    WriteParamsOnlyWrites(pkg, m.params, |m.params|);
  }

  /** A forwarding method with results: the transaction expects a response, every
      result is read from it, and all of them are returned. */
  lemma ForwardWithResults(h: Helpers, pkg: Package, name: string, desc: string, m: Func)
    requires 0 < |m.results| && !BadArity(m.results)
    ensures var s := ForwardStep(h, pkg, name, desc, m);
            var wp := WriteParams(pkg, m.params, |m.params|);
            var rr := ReadResults(h, pkg, m.results, |m.results|);
            s.out == [BeginForward(name, m.name), NewBuffer] + wp.out
                     + [Transact(desc, MethodProxy(name, m.name), true)] + rr.out
                     + [Return(|m.results|), EndBlock]
            && s.errs == SignatureErrors(pkg, m) + wp.errs + rr.errs
  {
  }

  /** The reads of the results follow one another in result order: the reads of result
      `i` sit right after those of the results before it. */
  lemma {:induction false} ReadResultsInOrder(h: Helpers, pkg: Package, rs: seq<Type>, n: nat, i: nat)
    requires i < n <= |rs|
    ensures var all := ReadResults(h, pkg, rs, n).out;
            var before := |ReadResults(h, pkg, rs, i).out|;
            var after := |ReadResults(h, pkg, rs, i + 1).out|;
            before <= after <= |all|
            && all[before..after] == ReadStep(h, pkg, ResAt(i), Out, rs[i]).out
  {
    if i < n - 1 {
      ReadResultsInOrder(h, pkg, rs, n - 1, i);
      var prev := ReadResults(h, pkg, rs, n - 1).out;
      assert ReadResults(h, pkg, rs, n).out == prev + ReadStep(h, pkg, ResAt(n - 1), Out, rs[n - 1]).out;
    }
  }
}
