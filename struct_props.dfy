/** Properties of genStruct's code assignment: the constant block and the init block
    agree, and every code under a struct's descriptor is registered exactly once. */
module StructProps {
  import opened GoTypes
  import opened Output
  import opened GenGo

  // ---------------------------------------------------------------------------
  // Positions in the constant and registration lists

  /** Field `i` gets getter code `i*0x100+0x0f` and setter code `i*0x100+0x1f`, in that
      order, in the constant block. */
  lemma {:induction false} FieldCodeConstsAt(name: string, fields: seq<Field>, n: nat, i: nat)
    requires i < n <= |fields|
    ensures |FieldCodeConsts(name, fields, n)| == 2 * n
    ensures FieldCodeConsts(name, fields, n)[2 * i] == CodeConst(FieldGet(name, fields[i].name), i * 0x100 + 0x0f)
    ensures FieldCodeConsts(name, fields, n)[2 * i + 1] == CodeConst(FieldSet(name, fields[i].name), i * 0x100 + 0x1f)
  {
    if i < n - 1 {
      FieldCodeConstsAt(name, fields, n - 1, i);
    } else if n > 1 {
      FieldCodeConstsAt(name, fields, n - 1, 0);
    }
  }

  /** Method `i` gets code `i*0x100+0x0c` in the constant block. */
  lemma {:induction false} MethodCodeConstsAt(name: string, methods: seq<Func>, n: nat, i: nat)
    requires i < n <= |methods|
    ensures |MethodCodeConsts(name, methods, n)| == n
    ensures MethodCodeConsts(name, methods, n)[i] == CodeConst(MethodProxy(name, methods[i].name), i * 0x100 + 0x0c)
  {
    if i < n - 1 {
      MethodCodeConstsAt(name, methods, n - 1, i);
    } else if n > 1 {
      MethodCodeConstsAt(name, methods, n - 1, 0);
    }
  }

  lemma {:induction false} FieldRegsLength(desc: string, name: string, fields: seq<Field>, n: nat)
    requires n <= |fields|
    ensures |FieldRegs(desc, name, fields, n)| == 2 * n
  {
    if n > 0 {
      FieldRegsLength(desc, name, fields, n - 1);
    }
  }

  /** The init block registers field `i`'s setter, then its getter, under the struct's
      descriptor. */
  lemma {:induction false} FieldRegsAt(desc: string, name: string, fields: seq<Field>, n: nat, i: nat)
    requires i < n <= |fields|
    ensures |FieldRegs(desc, name, fields, n)| == 2 * n
    ensures FieldRegs(desc, name, fields, n)[2 * i] == Register(desc, FieldSetCode(i), FieldSet(name, fields[i].name))
    ensures FieldRegs(desc, name, fields, n)[2 * i + 1] == Register(desc, FieldGetCode(i), FieldGet(name, fields[i].name))
  {
    FieldRegsLength(desc, name, fields, n - 1);
    if i < n - 1 {
      FieldRegsAt(desc, name, fields, n - 1, i);
    }
  }

  lemma {:induction false} StructMethodRegsLength(desc: string, name: string, methods: seq<Func>, n: nat)
    requires n <= |methods|
    ensures |StructMethodRegs(desc, name, methods, n)| == n
  {
    if n > 0 {
      StructMethodRegsLength(desc, name, methods, n - 1);
    }
  }

  /** The init block registers method `i` under the struct's descriptor. */
  lemma {:induction false} StructMethodRegsAt(desc: string, name: string, methods: seq<Func>, n: nat, i: nat)
    requires i < n <= |methods|
    ensures |StructMethodRegs(desc, name, methods, n)| == n
    ensures StructMethodRegs(desc, name, methods, n)[i]
            == Register(desc, StructMethodCode(i), MethodProxy(name, methods[i].name))
  {
    StructMethodRegsLength(desc, name, methods, n - 1);
    if i < n - 1 {
      StructMethodRegsAt(desc, name, methods, n - 1, i);
    }
  }

  // ---------------------------------------------------------------------------
  // The init block

  /** The code registered in slot `k` of a struct's init block (not counting `func
      init() {`), for a struct with `nf` fields: setter and getter of each field, then the
      methods. */
  function SlotCode(nf: nat, k: nat): int {
    if k < 2 * nf then (if k % 2 == 0 then FieldSetCode(k / 2) else FieldGetCode(k / 2))
    else StructMethodCode(k - 2 * nf)
  }

  /** Different slots register different codes. */
  lemma SlotCodesDistinct(nf: nat, k1: nat, k2: nat)
    requires k1 < k2
    ensures SlotCode(nf, k1) != SlotCode(nf, k2)
  {
    if k1 < 2 * nf && k2 < 2 * nf {
      if k1 / 2 == k2 / 2 {
        assert k1 % 2 == 0 && k2 % 2 == 1;
      }
    }
  }

  /** What slot `p` of the init block holds: `func init() {`, a registration of the
      struct's descriptor with the slot's code, or the closing brace. */
  lemma StructInitAt(desc: string, name: string, fields: seq<Field>, methods: seq<Func>, p: nat)
    requires p < |StructInit(desc, name, fields, methods)|
    ensures |StructInit(desc, name, fields, methods)| == 2 * |fields| + |methods| + 2
    ensures var e := StructInit(desc, name, fields, methods)[p];
            if p == 0 then e == BeginInit
            else if p == 2 * |fields| + |methods| + 1 then e == EndBlock
            else e.Register? && e.desc == desc && e.code == SlotCode(|fields|, p - 1)
  {
    var fr := FieldRegs(desc, name, fields, |fields|);
    var mr := StructMethodRegs(desc, name, methods, |methods|);
    FieldRegsLength(desc, name, fields, |fields|);
    StructMethodRegsLength(desc, name, methods, |methods|);
    assert StructInit(desc, name, fields, methods) == [BeginInit] + fr + mr + [EndBlock];
    var k := p - 1;
    if 0 < p && k < 2 * |fields| {
      FieldRegsAt(desc, name, fields, |fields|, k / 2);
      assert StructInit(desc, name, fields, methods)[p] == fr[k];
    } else if 0 < p && k < 2 * |fields| + |methods| {
      StructMethodRegsAt(desc, name, methods, |methods|, k - 2 * |fields|);
      assert StructInit(desc, name, fields, methods)[p] == mr[k - 2 * |fields|];
    }
  }

  /** The init block registers every code at most once, always under the struct's
      descriptor. */
  lemma StructInitCodesDistinct(desc: string, name: string, fields: seq<Field>, methods: seq<Func>)
    ensures var regs := StructInit(desc, name, fields, methods);
            forall p, q :: 0 <= p < q < |regs| && regs[p].Register? && regs[q].Register?
                           ==> regs[p].code != regs[q].code
    ensures var regs := StructInit(desc, name, fields, methods);
            forall p :: 0 <= p < |regs| && regs[p].Register? ==> regs[p].desc == desc
  {
    var regs := StructInit(desc, name, fields, methods);
    forall p, q | 0 <= p < q < |regs| && regs[p].Register? && regs[q].Register?
      ensures regs[p].code != regs[q].code
    {
      StructInitAt(desc, name, fields, methods, p);
      StructInitAt(desc, name, fields, methods, q);
      SlotCodesDistinct(|fields|, p - 1, q - 1);
    }
    forall p | 0 <= p < |regs| && regs[p].Register?
      ensures regs[p].desc == desc
    {
      StructInitAt(desc, name, fields, methods, p);
    }
  }

  /** Every field setter and getter and every method is registered: the init block holds
      the registration of each, with the code the constant block declares for it. */
  lemma StructRegistrationsMatchConsts(pkg: Package, name: string, fields: seq<Field>, methods: seq<Func>)
    ensures var desc := TypeDescriptor(pkg, name);
            var consts := StructConsts(pkg, name, fields, methods);
            var init := StructInit(desc, name, fields, methods);
            (forall i :: 0 <= i < |fields| ==>
               CodeConst(FieldSet(name, fields[i].name), FieldSetCode(i)) in consts
               && Register(desc, FieldSetCode(i), FieldSet(name, fields[i].name)) in init
               && CodeConst(FieldGet(name, fields[i].name), FieldGetCode(i)) in consts
               && Register(desc, FieldGetCode(i), FieldGet(name, fields[i].name)) in init)
            && (forall i :: 0 <= i < |methods| ==>
               CodeConst(MethodProxy(name, methods[i].name), StructMethodCode(i)) in consts
               && Register(desc, StructMethodCode(i), MethodProxy(name, methods[i].name)) in init)
  {
    var desc := TypeDescriptor(pkg, name);
    var fc := FieldCodeConsts(name, fields, |fields|);
    var mc := MethodCodeConsts(name, methods, |methods|);
    var fr := FieldRegs(desc, name, fields, |fields|);
    var mr := StructMethodRegs(desc, name, methods, |methods|);
    assert StructConsts(pkg, name, fields, methods) == [DescriptorConst(name, desc)] + fc + mc + [RefType(name)];
    assert StructInit(desc, name, fields, methods) == [BeginInit] + fr + mr + [EndBlock];
    forall i | 0 <= i < |fields|
      ensures CodeConst(FieldSet(name, fields[i].name), FieldSetCode(i)) in fc
      ensures CodeConst(FieldGet(name, fields[i].name), FieldGetCode(i)) in fc
      ensures Register(desc, FieldSetCode(i), FieldSet(name, fields[i].name)) in fr
      ensures Register(desc, FieldGetCode(i), FieldGet(name, fields[i].name)) in fr
    {
      FieldCodeConstsAt(name, fields, |fields|, i);
      FieldRegsAt(desc, name, fields, |fields|, i);
    }
    forall i | 0 <= i < |methods|
      ensures CodeConst(MethodProxy(name, methods[i].name), StructMethodCode(i)) in mc
      ensures Register(desc, StructMethodCode(i), MethodProxy(name, methods[i].name)) in mr
    {
      MethodCodeConstsAt(name, methods, |methods|, i);
      StructMethodRegsAt(desc, name, methods, |methods|, i);
    }
  }
}
