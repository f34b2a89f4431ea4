/**
 * The virtual function-table builder of p11-kit (p11-kit/virtual.c).
 *
 * A p11_virtual is one interceptor layer: a CK_X_FUNCTION_LIST (every operation takes the
 * layer itself as first argument) and an untyped pointer to the layer or module below.
 * p11_virtual_wrap compiles a stack of such layers into one plain CK_FUNCTION_LIST: each
 * operation slot either points straight at the bottom module's function (when every layer
 * only forwards it) or at a libffi trampoline that re-enters the top layer.
 *
 * Function pointers are modelled as the tokens of `Fn`; a trampoline is identified by what
 * it runs (its binding function and user data), which is all a caller can observe of it.
 */
module Virtual {
  import opened Wrappers

  /** Entries of function_info: every PKCS#11 2.x entry point except C_GetFunctionList,
      C_GetFunctionStatus and C_CancelFunction, in the order of the table. */
  const NumSlots: nat := 65
  /** MAX_FUNCTIONS: closures one wrapper can hold (the 65 slots and C_GetFunctionList). */
  const MaxFunctions: nat := 66

  const CKR_OK: nat := 0x00
  const CKR_ARGUMENTS_BAD: nat := 0x07
  const CKR_FUNCTION_NOT_PARALLEL: nat := 0x51

  datatype Version = Version(major: nat, minor: nat)
  /** CRYPTOKI_VERSION_MAJOR / CRYPTOKI_VERSION_MINOR of the bundled pkcs11.h. */
  const CryptokiVersion: Version := Version(2, 40)
  /** A version whose two bytes were overwritten with 0xFE. */
  const PoisonVersion: Version := Version(0xFE, 0xFE)

  /** A non-null p11_destroyer, as an opaque token. */
  type Destroyer = nat

  /** A function pointer stored in a table slot. */
  datatype Fn =
    | Null
    | Impl(id: nat)              // a function written by a module or an interceptor
    | StackFwd(slot: nat)        // the generated stack_C_<name> forwarder of a slot
    | BaseFwd(slot: nat)         // the generated base_C_<name> forwarder of a slot
    | Closure(binding: Binding)  // a libffi trampoline, by the binding it runs
    | ShortGetFunctionStatus     // short_C_GetFunctionStatus
    | ShortCancelFunction        // short_C_CancelFunction
    | Poison                     // a pointer whose bytes are all 0xFE

  /** The binding function and user data a trampoline was prepared with. */
  datatype Binding =
    | SlotBinding(over: Virtual, slot: nat)  // binding_C_<name>, user data &wrapper->virt->funcs
    | GetListBinding                         // binding_C_GetFunctionList, user data the wrapper

  /** CK_FUNCTION_LIST: the plain module table (slots in function_info order). */
  datatype FunctionList = FunctionList(
    version: Version,
    getFunctionList: Fn,
    slots: seq<Fn>,
    getFunctionStatus: Fn,
    cancelFunction: Fn)

  /** CK_X_FUNCTION_LIST: the table of an interceptor layer. */
  datatype XFunctionList = XFunctionList(version: Version, slots: seq<Fn>)

  /** The untyped lower_module pointer: the next layer down or the bottom module. */
  datatype Ref = VirtualRef(virt: Virtual) | ModuleRef(table: FunctionList)

  /** p11_virtual: the layer's own table, the lower module and its optional destroyer. */
  datatype Virtual = Virtual(funcs: XFunctionList, lowerModule: Ref, lowerDestroy: Option<Destroyer>)

  /** A destroyer invocation `fn(arg)`. */
  datatype DestroyCall = DestroyCall(fn: Destroyer, arg: Ref)

  /** What finally runs when a slot is called: a plain module function, an interceptor
      function receiving `self` as its first argument, or binding_C_GetFunctionList. */
  datatype Entry = ModuleEntry(f: Fn) | LayerEntry(self: Virtual, f: Fn) | GetFunctionListEntry

  /** p11_virtual_stack: every slot forwards to the layer below. */
  function VirtualStack(): XFunctionList {
    XFunctionList(CryptokiVersion, seq(NumSlots, (i: nat) => StackFwd(i)))
  }

  /** p11_virtual_base: every slot forwards to the module below. */
  function VirtualBase(): XFunctionList {
    XFunctionList(CryptokiVersion, seq(NumSlots, (i: nat) => BaseFwd(i)))
  }

  /** The tables the source builds: a stack forwarder only ever sits over a layer and a base
      forwarder only over a module (lower_module is read with that type), and every table has
      all of its slots. */
  predicate WellFormed(v: Virtual)
    decreases v
  {
    && |v.funcs.slots| == NumSlots
    && match v.lowerModule
       case VirtualRef(w) =>
         && (forall i :: 0 <= i < NumSlots ==> v.funcs.slots[i] != BaseFwd(i))
         && WellFormed(w)
       case ModuleRef(m) =>
         && |m.slots| == NumSlots
         && (forall i :: 0 <= i < NumSlots ==> v.funcs.slots[i] != StackFwd(i))
  }

  /** The module at the bottom of the stack. */
  function Bottom(v: Virtual): (m: FunctionList)
    decreases v
    ensures WellFormed(v) ==> |m.slots| == NumSlots
  {
    match v.lowerModule
    case VirtualRef(w) => Bottom(w)
    case ModuleRef(m) => m
  }

  /** The layers of the stack, top first; each one's lower_module is the next. */
  function Chain(v: Virtual): (c: seq<Virtual>)
    decreases v
    ensures |c| >= 1 && c[0] == v
    ensures forall k :: 0 <= k < |c| - 1 ==> c[k].lowerModule == VirtualRef(c[k + 1])
    ensures c[|c| - 1].lowerModule == ModuleRef(Bottom(v))
    ensures WellFormed(v) ==> forall k :: 0 <= k < |c| ==> WellFormed(c[k])
  {
    match v.lowerModule
    case VirtualRef(w) => [v] + Chain(w)
    case ModuleRef(_) => [v]
  }

  /** Slot i passes through every layer: all layers but the last hold their stack forwarder
      and the last holds its base forwarder. */
  ghost predicate PassesThrough(v: Virtual, i: nat)
    requires WellFormed(v) && i < NumSlots
  {
    var c := Chain(v);
    && (forall k :: 0 <= k < |c| - 1 ==> c[k].funcs.slots[i] == StackFwd(i))
    && c[|c| - 1].funcs.slots[i] == BaseFwd(i)
  }

  /** Every slot passes through the whole stack (no layer intercepts anything). */
  ghost predicate AllPassthrough(v: Virtual)
    requires WellFormed(v)
  {
    forall i :: 0 <= i < NumSlots ==> PassesThrough(v, i)
  }

  /** lookup_fall_through: follow stack forwarders down; at a base forwarder the module's own
      function is the answer; any other slot value means some layer intercepts. */
  function LookupFallThrough(v: Virtual, i: nat): (r: Option<Fn>)
    requires WellFormed(v) && i < NumSlots
    decreases v
    ensures r.Some? ==> r.value == Bottom(v).slots[i]
  {
    var f := v.funcs.slots[i];
    if f == StackFwd(i) then LookupFallThrough(v.lowerModule.virt, i)
    else if f == BaseFwd(i) then Some(v.lowerModule.table.slots[i])
    else None
  }

  /** The lookup succeeds exactly for the slots that pass through the whole stack. */
  lemma {:induction false} LookupPassesThrough(v: Virtual, i: nat)
    requires WellFormed(v) && i < NumSlots
    ensures LookupFallThrough(v, i).Some? <==> PassesThrough(v, i)
    decreases v
  {
    var c := Chain(v);
    match v.lowerModule
    case VirtualRef(w) =>
      var cw := Chain(w);
      assert c == [v] + cw;
      LookupPassesThrough(w, i);
      if v.funcs.slots[i] == StackFwd(i) {
        if PassesThrough(w, i) {
          forall k | 0 <= k < |c| - 1 ensures c[k].funcs.slots[i] == StackFwd(i) {
            if k > 0 { assert c[k] == cw[k - 1]; }
          }
        }
        if PassesThrough(v, i) {
          forall k | 0 <= k < |cw| - 1 ensures cw[k].funcs.slots[i] == StackFwd(i) {
            assert cw[k] == c[k + 1];
          }
          assert cw[|cw| - 1] == c[|c| - 1];
        }
      } else {
        assert c[0].funcs.slots[i] != StackFwd(i);
      }
    case ModuleRef(_) =>
  }

  /** The index of the first layer whose slot i is not its stack forwarder. */
  function FirstNonForwarding(v: Virtual, i: nat): (k: nat)
    requires WellFormed(v) && i < NumSlots
    decreases v
    ensures k < |Chain(v)|
  {
    if v.funcs.slots[i] == StackFwd(i) then 1 + FirstNonForwarding(v.lowerModule.virt, i) else 0
  }

  /** What runs when slot i of layer v is called with v as self. A generated stack forwarder
      calls the slot of the layer below with that layer as self; a generated base forwarder
      calls the module's slot without self; anything else is the layer's own code. */
  function Resolve(v: Virtual, i: nat): Entry
    requires WellFormed(v) && i < NumSlots
    decreases v, 1
  {
    var f := v.funcs.slots[i];
    if f == StackFwd(i) then Resolve(v.lowerModule.virt, i)
    else if f == BaseFwd(i) then
      assert v.lowerModule.table.slots[i] in v.lowerModule.table.slots;
      Called(v.lowerModule.table.slots[i])
    else LayerEntry(v, f)
  }

  /** What runs when the function pointer f of a plain table is called. A trampoline runs
      its binding: binding_C_<name> calls over->C_<name>(over, args...), that is, the slot of
      the top layer with the top layer as self. */
  function Called(f: Fn): Entry
    decreases f, 0
  {
    match f
    case Closure(SlotBinding(over, i)) =>
      if WellFormed(over) && i < NumSlots then Resolve(over, i) else ModuleEntry(f)
    case Closure(GetListBinding) => GetFunctionListEntry
    case _ => ModuleEntry(f)
  }

  /** Calling slot i of a stack runs: the first layer that does not forward it, with that
      layer as self, or, when every layer forwards it, the bottom module's function. */
  lemma {:induction false} ResolveByChain(v: Virtual, i: nat)
    requires WellFormed(v) && i < NumSlots
    ensures var c, k := Chain(v), FirstNonForwarding(v, i);
      && (forall j :: 0 <= j < k ==> c[j].funcs.slots[i] == StackFwd(i))
      && c[k].funcs.slots[i] != StackFwd(i)
      && Resolve(v, i) == (if c[k].funcs.slots[i] == BaseFwd(i) then Called(Bottom(v).slots[i])
                           else LayerEntry(c[k], c[k].funcs.slots[i]))
    decreases v
  {
    if v.funcs.slots[i] == StackFwd(i) {
      var w := v.lowerModule.virt;
      ResolveByChain(w, i);
      var c, cw := Chain(v), Chain(w);
      assert c == [v] + cw;
      var k := FirstNonForwarding(v, i);
      assert c[k] == cw[k - 1];
      forall j | 0 <= j < k ensures c[j].funcs.slots[i] == StackFwd(i) {
        if j > 0 { assert c[j] == cw[j - 1]; }
      }
    }
  }

  /** Binding the module's function directly changes nothing a caller can observe: it runs
      exactly what calling the top layer's slot through the stack runs. */
  lemma {:induction false} FallThroughPreservesCalls(v: Virtual, i: nat)
    requires WellFormed(v) && i < NumSlots
    requires LookupFallThrough(v, i).Some?
    ensures Called(LookupFallThrough(v, i).value) == Resolve(v, i)
    decreases v
  {
    if v.funcs.slots[i] == StackFwd(i) {
      FallThroughPreservesCalls(v.lowerModule.virt, i);
    }
  }

  /** The trampolines init_wrapper_funcs binds for slots [0, n), in order: one per slot whose
      lookup fails, each re-entering the top layer at that slot. */
  function Interceptions(v: Virtual, n: nat): (r: seq<Binding>)
    requires WellFormed(v) && n <= NumSlots
    ensures |r| <= n
    ensures forall k :: 0 <= k < |r| ==> r[k].SlotBinding? && r[k].over == v && r[k].slot < n
  {
    if n == 0 then []
    else
      Interceptions(v, n - 1)
        + (if LookupFallThrough(v, n - 1).None? then [SlotBinding(v, n - 1)] else [])
  }

  /** The trampolines are in strictly increasing slot order, so at most one per slot, and a
      slot below n has one exactly when its lookup fails. */
  lemma {:induction false} InterceptionsOrdered(v: Virtual, n: nat)
    requires WellFormed(v) && n <= NumSlots
    ensures forall k, l :: 0 <= k < l < |Interceptions(v, n)| ==>
      Interceptions(v, n)[k].slot < Interceptions(v, n)[l].slot
    ensures forall s :: 0 <= s < n ==> (SlotBinding(v, s) in Interceptions(v, n) <==> LookupFallThrough(v, s).None?)
  {
    if n > 0 {
      InterceptionsOrdered(v, n - 1);
      var p := Interceptions(v, n - 1);
      var r := Interceptions(v, n);
      assert r == p + (if LookupFallThrough(v, n - 1).None? then [SlotBinding(v, n - 1)] else []);
      forall k, l | 0 <= k < l < |r|
        ensures r[k].slot < r[l].slot
      {
        assert r[k] == p[k];
        if l >= |p| {
          assert p[k].slot < n - 1;
          assert r[l] == SlotBinding(v, n - 1);
          assert r[k].slot < r[l].slot;
        } else {
          assert r[l] == p[l];
          assert p[k].slot < p[l].slot;
        }
      }
    }
  }

  lemma {:induction false} InterceptionsPrefix(v: Virtual, n: nat, m: nat)
    requires WellFormed(v) && n <= m <= NumSlots
    ensures Interceptions(v, n) <= Interceptions(v, m)
    decreases m - n
  {
    if n < m {
      InterceptionsPrefix(v, n, m - 1);
    }
  }

  /** Every closure a successful wrap allocates: the intercepted slots, then
      C_GetFunctionList. */
  function WrapperClosures(v: Virtual): (r: seq<Binding>)
    requires WellFormed(v)
    ensures 1 <= |r| <= MaxFunctions
    ensures r[|r| - 1] == GetListBinding
  {
    Interceptions(v, NumSlots) + [GetListBinding]
  }

  /** The value init_wrapper_funcs places in slot i. */
  function BoundSlot(v: Virtual, i: nat): Fn
    requires WellFormed(v) && i < NumSlots
  {
    match LookupFallThrough(v, i)
    case Some(f) => f
    case None => Closure(SlotBinding(v, i))
  }

  /** The table a successful p11_virtual_wrap returns. */
  function BoundTable(v: Virtual): FunctionList
    requires WellFormed(v)
  {
    FunctionList(
      CryptokiVersion,
      Closure(GetListBinding),
      seq(NumSlots, (i: nat) requires i < NumSlots && WellFormed(v) => BoundSlot(v, i)),
      ShortGetFunctionStatus,
      ShortCancelFunction)
  }

  /** The table after p11_virtual_unwrap's memset with 0xFE. */
  const PoisonTable: FunctionList :=
    FunctionList(PoisonVersion, Poison, seq(NumSlots, _ => Poison), Poison, Poison)

  /** p11_virtual_is_wrapper (libffi build): both marker slots hold the short stubs. */
  predicate IsWrapper(m: FunctionList) {
    m.getFunctionStatus == ShortGetFunctionStatus && m.cancelFunction == ShortCancelFunction
  }

  /** The two build variants of virtual.c. */
  datatype Build = WithFfi | WithoutFfi

  /** p11_virtual_can_wrap: only the libffi build can build trampolines. */
  function CanWrap(b: Build): bool {
    match b
    case WithFfi => true
    case WithoutFfi => false
  }

  /** p11_virtual_is_wrapper of either build: without libffi no table is a wrapper. */
  function IsWrapperIn(b: Build, m: FunctionList): (r: bool)
    ensures r ==> CanWrap(b)
    ensures b == WithFfi ==> (r <==> IsWrapper(m))
  {
    match b
    case WithFfi => IsWrapper(m)
    case WithoutFfi => false
  }

  /** short_C_GetFunctionStatus, whatever the session handle. */
  function GetFunctionStatusStub(handle: nat): nat {
    CKR_FUNCTION_NOT_PARALLEL
  }

  /** short_C_CancelFunction, whatever the session handle. */
  function CancelFunctionStub(handle: nat): nat {
    CKR_FUNCTION_NOT_PARALLEL
  }

  /** p11_virtual_init: copy the layer's table and record the lower module and destroyer. */
  function VirtualInit(funcs: XFunctionList, lowerModule: Ref, lowerDestroy: Option<Destroyer>): Virtual {
    Virtual(funcs, lowerModule, lowerDestroy)
  }

  /** p11_virtual_uninit: the destroyer calls it makes. */
  function VirtualUninit(v: Virtual): (calls: seq<DestroyCall>)
    ensures |calls| <= 1
    ensures calls != [] <==> v.lowerDestroy.Some?
    ensures calls != [] ==> calls[0] == DestroyCall(v.lowerDestroy.value, v.lowerModule)
  {
    match v.lowerDestroy
    case Some(d) => [DestroyCall(d, v.lowerModule)]
    case None => []
  }

  /** Calling any slot of the compiled table runs exactly what calling the same slot of the
      top layer through the stack runs, and C_GetFunctionList runs its own binding. */
  lemma CompiledTableAgrees(v: Virtual)
    requires WellFormed(v)
    ensures forall i :: 0 <= i < NumSlots ==> Called(BoundTable(v).slots[i]) == Resolve(v, i)
    ensures Called(BoundTable(v).getFunctionList) == GetFunctionListEntry
  {
    forall i | 0 <= i < NumSlots ensures Called(BoundTable(v).slots[i]) == Resolve(v, i) {
      if LookupFallThrough(v, i).Some? {
        FallThroughPreservesCalls(v, i);
      }
    }
  }

  /** A slot is bound to the module's own function exactly when it passes through every
      layer; otherwise it is bound to a trampoline that re-enters the top layer. */
  lemma BoundSlotByStack(v: Virtual, i: nat)
    requires WellFormed(v) && i < NumSlots
    ensures PassesThrough(v, i) ==> BoundTable(v).slots[i] == Bottom(v).slots[i]
    ensures !PassesThrough(v, i) ==> BoundTable(v).slots[i] == Closure(SlotBinding(v, i))
  {
    LookupPassesThrough(v, i);
  }

  /** A stack built only from p11_virtual_stack layers over one p11_virtual_base layer. */
  ghost predicate ForwardingStack(v: Virtual) {
    var c := Chain(v);
    && (forall k :: 0 <= k < |c| - 1 ==> c[k].funcs == VirtualStack())
    && c[|c| - 1].funcs == VirtualBase()
  }

  /** Such a stack forwards every slot down to the module. */
  lemma ForwardingStackPassesThrough(v: Virtual)
    requires WellFormed(v) && ForwardingStack(v)
    ensures AllPassthrough(v)
  {
    var c := Chain(v);
    forall i | 0 <= i < NumSlots ensures PassesThrough(v, i) {
      forall k | 0 <= k < |c| - 1 ensures c[k].funcs.slots[i] == StackFwd(i) {
        assert c[k].funcs == VirtualStack();
      }
      assert c[|c| - 1].funcs == VirtualBase();
    }
  }

  lemma {:induction false} NoInterceptions(v: Virtual, n: nat)
    requires WellFormed(v) && n <= NumSlots
    requires forall i :: 0 <= i < n ==> PassesThrough(v, i)
    ensures Interceptions(v, n) == []
  {
    if n > 0 {
      NoInterceptions(v, n - 1);
      LookupPassesThrough(v, n - 1);
    }
  }

  /** Zero-overhead collapse: a stack where every layer forwards everything compiles to the
      bottom module's own functions, and only the C_GetFunctionList trampoline is created. */
  lemma AllPassthroughCollapses(v: Virtual)
    requires WellFormed(v) && AllPassthrough(v)
    ensures BoundTable(v).slots == Bottom(v).slots
    ensures WrapperClosures(v) == [GetListBinding]
  {
    forall i | 0 <= i < NumSlots ensures BoundTable(v).slots[i] == Bottom(v).slots[i] {
      BoundSlotByStack(v, i);
    }
    NoInterceptions(v, NumSlots);
  }

  lemma {:induction false} OneInterception(v: Virtual, s: nat, n: nat)
    requires WellFormed(v) && s < NumSlots && n <= NumSlots
    requires forall i :: 0 <= i < NumSlots && i != s ==> PassesThrough(v, i)
    requires !PassesThrough(v, s)
    ensures Interceptions(v, n) == if n <= s then [] else [SlotBinding(v, s)]
  {
    if n > 0 {
      OneInterception(v, s, n - 1);
      LookupPassesThrough(v, n - 1);
    }
  }

  /** A slot whose lookup fails is served by the first layer that does not forward it, with
      that layer as self. */
  lemma {:induction false} InterceptedEntersLayer(v: Virtual, i: nat)
    requires WellFormed(v) && i < NumSlots
    requires LookupFallThrough(v, i).None?
    ensures var c, k := Chain(v), FirstNonForwarding(v, i);
      Resolve(v, i) == LayerEntry(c[k], c[k].funcs.slots[i])
    decreases v
  {
    if v.funcs.slots[i] == StackFwd(i) {
      var w := v.lowerModule.virt;
      InterceptedEntersLayer(w, i);
      assert Chain(v) == [v] + Chain(w);
    }
  }

  /** A stack that intercepts exactly one slot s compiles to a table that differs from the
      straight pass-through only at s; s holds the one slot trampoline, and calling it runs
      the first layer that does not forward s, with that layer as self. */
  lemma SingleInterception(v: Virtual, s: nat)
    requires WellFormed(v) && s < NumSlots
    requires forall i :: 0 <= i < NumSlots && i != s ==> PassesThrough(v, i)
    requires !PassesThrough(v, s)
    ensures forall i :: 0 <= i < NumSlots && i != s ==> BoundTable(v).slots[i] == Bottom(v).slots[i]
    ensures BoundTable(v).slots[s] == Closure(SlotBinding(v, s))
    ensures WrapperClosures(v) == [SlotBinding(v, s), GetListBinding]
    ensures var c, k := Chain(v), FirstNonForwarding(v, s);
      Called(BoundTable(v).slots[s]) == LayerEntry(c[k], c[k].funcs.slots[s])
  {
    forall i | 0 <= i < NumSlots && i != s ensures BoundTable(v).slots[i] == Bottom(v).slots[i] {
      BoundSlotByStack(v, i);
    }
    BoundSlotByStack(v, s);
    OneInterception(v, s, NumSlots);
    LookupPassesThrough(v, s);
    InterceptedEntersLayer(v, s);
  }

  /** One layer of p11_virtual_base over a module, as the async RPC server builds it, is
      well formed, compiles to the module's own functions and has nothing to destroy. */
  lemma BaseLayerOverModule(m: FunctionList)
    requires |m.slots| == NumSlots
    ensures var v := VirtualInit(VirtualBase(), ModuleRef(m), None);
      && WellFormed(v)
      && BoundTable(v).slots == m.slots
      && WrapperClosures(v) == [GetListBinding]
      && VirtualUninit(v) == []
  {
    var v := VirtualInit(VirtualBase(), ModuleRef(m), None);
    assert WellFormed(v);
    assert Chain(v) == [v];
    AllPassthroughCollapses(v);
  }

  /** The wrapper structure behind a bound table (Wrapper in virtual.c). The table sits at
      the front of the structure, so the wrapper object also stands for the table pointer. */
  class Wrapper {
    var bound: FunctionList
    const virt: Virtual
    const destroyer: Option<Destroyer>
    const ffiClosures: array<Binding>
    var ffiUsed: nat

    ghost predicate Valid()
      reads this
    {
      && ffiClosures.Length == MaxFunctions
      && ffiUsed <= MaxFunctions
      && |bound.slots| == NumSlots
    }

    /** The closures bound so far. */
    ghost function Closures(): seq<Binding>
      reads this, ffiClosures
      requires ffiUsed <= ffiClosures.Length
    {
      ffiClosures[..ffiUsed]
    }

    /** The zero-filled wrapper of p11_virtual_wrap, with virt, destroyer and version set. */
    constructor (virt: Virtual, destroyer: Option<Destroyer>)
      ensures Valid() && fresh(ffiClosures)
      ensures this.virt == virt && this.destroyer == destroyer && ffiUsed == 0
      ensures bound == FunctionList(CryptokiVersion, Null, seq(NumSlots, _ => Null), Null, Null)
    {
      this.virt := virt;
      this.destroyer := destroyer;
      bound := FunctionList(CryptokiVersion, Null, seq(NumSlots, _ => Null), Null, Null);
      ffiClosures := new Binding[MaxFunctions](_ => GetListBinding);
      ffiUsed := 0;
    }

    /** bind_ffi_closure: `prepared` is whether libffi could prepare and allocate the
        closure. On success the closure is recorded and ffi_used grows by one. */
    method BindFfiClosure(binding: Binding, prepared: bool) returns (ok: bool, f: Fn)
      requires Valid() && ffiUsed < MaxFunctions
      modifies this`ffiUsed, ffiClosures
      ensures Valid() && ok == prepared
      ensures ok ==> f == Closure(binding) && ffiUsed == old(ffiUsed) + 1
      ensures ok ==> ffiClosures[..ffiUsed] == old(ffiClosures[..ffiUsed]) + [binding]
      ensures !ok ==> ffiUsed == old(ffiUsed) && ffiClosures[..] == old(ffiClosures[..])
    {
      if !prepared {
        return false, Null;
      }
      ffiClosures[ffiUsed] := binding;
      ffiUsed := ffiUsed + 1;
      ok, f := true, Closure(binding);
    }

    /** One pass of the loop of init_wrapper_funcs over slot i: the module's own function when
        the stack falls through, otherwise a new closure, which `prepared` says can be built. */
    method BindSlot(i: nat, prepared: bool) returns (ok: bool)
      requires Valid() && WellFormed(virt) && i < NumSlots
      requires ffiClosures[..ffiUsed] == Interceptions(virt, i)
      modifies this`bound, this`ffiUsed, ffiClosures
      ensures Valid() && bound.version == old(bound.version)
      ensures ok <==> LookupFallThrough(virt, i).Some? || prepared
      ensures ok ==> bound.slots == old(bound.slots)[i := BoundSlot(virt, i)]
      ensures ok ==> ffiClosures[..ffiUsed] == Interceptions(virt, i + 1)
      ensures !ok ==> ffiUsed == old(ffiUsed)
    {
      var r := LookupFallThrough(virt, i);
      if r.Some? {
        assert Interceptions(virt, i + 1) == Interceptions(virt, i) + [];
        bound := bound.(slots := bound.slots[i := r.value]);
        return true;
      }
      assert Interceptions(virt, i + 1) == Interceptions(virt, i) + [SlotBinding(virt, i)];
      var f;
      ok, f := BindFfiClosure(SlotBinding(virt, i), prepared);
      if ok {
        bound := bound.(slots := bound.slots[i := f]);
      }
    }

    /** init_wrapper_funcs: `libffi(k)` is whether the k-th closure can be built. Binding stops
        at the first closure that cannot. */
    method InitWrapperFuncs(libffi: nat -> bool) returns (ok: bool)
      requires Valid() && ffiUsed == 0 && WellFormed(virt)
      modifies this`bound, this`ffiUsed, ffiClosures
      ensures Valid()
      ensures ok <==> forall k :: 0 <= k < |WrapperClosures(virt)| ==> libffi(k)
      ensures ok ==> bound == BoundTable(virt).(version := old(bound.version))
      ensures ok ==> ffiClosures[..ffiUsed] == WrapperClosures(virt)
      ensures !ok ==> ffiUsed < |WrapperClosures(virt)| && !libffi(ffiUsed)
    {
      var i := 0;
      while i < NumSlots
        invariant 0 <= i <= NumSlots && Valid()
        invariant bound.version == old(bound.version)
        invariant forall j :: 0 <= j < i ==> bound.slots[j] == BoundSlot(virt, j)
        invariant ffiClosures[..ffiUsed] == Interceptions(virt, i)
        invariant forall k :: 0 <= k < ffiUsed ==> libffi(k)
      {
        var slot_ok := BindSlot(i, libffi(ffiUsed));
        if !slot_ok {
          InterceptionsPrefix(virt, i, NumSlots);
          return false;
        }
        i := i + 1;
      }
      var list_ok, f := BindFfiClosure(GetListBinding, libffi(ffiUsed));
      if !list_ok {
        return false;
      }
      bound := bound.(getFunctionList := f,
                      cancelFunction := ShortCancelFunction,
                      getFunctionStatus := ShortGetFunctionStatus);
      assert bound.slots == BoundTable(virt).slots;
      ok := true;
    }

    /** binding_C_GetFunctionList: `listIsNull` says whether the caller's
        CK_FUNCTION_LIST_PTR_PTR is NULL; `stored` is the table written through it. */
    method BindingGetFunctionList(listIsNull: bool) returns (rv: nat, stored: Wrapper?)
      ensures listIsNull ==> rv == CKR_ARGUMENTS_BAD && stored == null
      ensures !listIsNull ==> rv == CKR_OK && stored == this
    {
      if listIsNull {
        rv, stored := CKR_ARGUMENTS_BAD, null;
      } else {
        rv, stored := CKR_OK, this;
      }
    }
  }

  /** p11_virtual_wrap (libffi build). `virt` is None for a NULL layer, `allocOk` is whether
      the wrapper could be allocated and `libffi(k)` whether the k-th closure can be built. */
  method Wrap(virt: Option<Virtual>, destroyer: Option<Destroyer>, allocOk: bool, libffi: nat -> bool)
    returns (w: Wrapper?)
    requires virt.Some? ==> WellFormed(virt.value)
    ensures w != null <==>
      virt.Some? && allocOk && forall k :: 0 <= k < |WrapperClosures(virt.value)| ==> libffi(k)
    ensures w != null ==> fresh(w) && fresh(w.ffiClosures) && w.Valid()
    ensures w != null ==> w.virt == virt.value && w.destroyer == destroyer
    ensures w != null ==> w.bound == BoundTable(virt.value) && IsWrapper(w.bound)
    ensures w != null ==> w.bound.version == CryptokiVersion && w.bound.getFunctionList != Null
    ensures w != null ==> w.ffiClosures[..w.ffiUsed] == WrapperClosures(virt.value)
  {
    if virt.None? || !allocOk {
      return null;
    }
    var wrapper := new Wrapper(virt.value, destroyer);
    var ok := wrapper.InitWrapperFuncs(libffi);
    if !ok {
      return null;
    }
    w := wrapper;
  }

  /** p11_virtual_unwrap (libffi build): a table that is not a wrapper is left alone;
      otherwise the whole table is overwritten with 0xFE bytes, so that it no longer passes
      is_wrapper, and then the wrapper's destroyer, if any, is called on its layer. */
  method Unwrap(w: Wrapper) returns (calls: seq<DestroyCall>)
    modifies w`bound
    ensures !old(IsWrapper(w.bound)) ==> w.bound == old(w.bound) && calls == []
    ensures old(IsWrapper(w.bound)) ==> w.bound == PoisonTable && !IsWrapper(w.bound)
    ensures old(IsWrapper(w.bound)) ==>
      calls == if w.destroyer.Some? then [DestroyCall(w.destroyer.value, VirtualRef(w.virt))] else []
  {
    if !IsWrapper(w.bound) {
      return [];
    }
    w.bound := PoisonTable;
    calls := [];
    if w.destroyer.Some? {
      calls := [DestroyCall(w.destroyer.value, VirtualRef(w.virt))];
    }
  }
}
