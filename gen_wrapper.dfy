/**
 * The data transforms of p11-kit's wrapper generator (p11-kit/gen-wrapper.py), which writes
 * the p11_virtual_base and p11_virtual_stack forwarder tables that virtual.c matches against.
 *
 * The model starts after the regular expressions: a header's function declarations arrive as
 * already split names, argument names and argument types, and the member lists of the two
 * function-list structs as sequences of names. A Python exception that ends the script is a
 * `Raised` outcome.
 */
module GenWrapper {
  import opened Wrappers

  /** The Argument named tuple; the type text is `typ`. */
  datatype Argument = Argument(name: string, typ: string)

  /** The Function named tuple. */
  datatype Function = Function(name: string, args: seq<Argument>)

  /** The Python exceptions the transforms can raise. */
  datatype PyError = ValueError | IndexError

  datatype Result<T> = Ok(value: T) | Raised(error: PyError)

  datatype Outcome = Done | Failed(error: PyError)

  // ----- Ordering by struct member position -----

  /** list.index: the first position of x, or None where Python raises ValueError. */
  function IndexOf(names: seq<string>, x: string): (r: Option<nat>)
    ensures r.Some? <==> x in names
    ensures r.Some? ==> r.value < |names| && names[r.value] == x
    ensures r.Some? ==> forall i :: 0 <= i < r.value ==> names[i] != x
  {
    if names == [] then None
    else if names[0] == x then Some(0)
    else match IndexOf(names[1..], x)
      case Some(i) => Some(i + 1)
      case None => None
  }

  /** The sort key of a function: its name's position in the member list. */
  function Key(names: seq<string>, f: Function): nat
    requires f.name in names
  {
    IndexOf(names, f.name).value
  }

  ghost predicate AllListed(names: seq<string>, fs: seq<Function>) {
    forall i :: 0 <= i < |fs| ==> fs[i].name in names
  }

  ghost predicate SortedByKey(names: seq<string>, fs: seq<Function>)
    requires AllListed(names, fs)
  {
    forall i, j :: 0 <= i < j < |fs| ==> Key(names, fs[i]) <= Key(names, fs[j])
  }

  /** Insert f before the first element whose key is not smaller, so that f comes before the
      elements of its own key already there. */
  function Insert(names: seq<string>, f: Function, fs: seq<Function>): (r: seq<Function>)
    requires f.name in names && AllListed(names, fs)
    ensures AllListed(names, r) && multiset(r) == multiset(fs) + multiset{f}
  {
    if fs == [] then [f]
    else if Key(names, f) <= Key(names, fs[0]) then [f] + fs
    else
      assert fs == [fs[0]] + fs[1..];
      [fs[0]] + Insert(names, f, fs[1..])
  }

  /** A sort of fs by member position: each element is inserted in front of the sorted rest of
      the list, ahead of the later elements of its key. */
  function SortByKey(names: seq<string>, fs: seq<Function>): (r: seq<Function>)
    requires AllListed(names, fs)
    ensures AllListed(names, r) && multiset(r) == multiset(fs)
  {
    if fs == [] then []
    else
      assert fs == [fs[0]] + fs[1..];
      Insert(names, fs[0], SortByKey(names, fs[1..]))
  }

  /** Inserting an element no smaller than a bound into elements no smaller than it keeps
      every element no smaller than it. */
  lemma {:induction false} InsertLowerBound(names: seq<string>, f: Function, fs: seq<Function>, b: nat)
    requires f.name in names && AllListed(names, fs)
    requires b <= Key(names, f) && forall k :: 0 <= k < |fs| ==> b <= Key(names, fs[k])
    ensures forall k :: 0 <= k < |Insert(names, f, fs)| ==> b <= Key(names, Insert(names, f, fs)[k])
  {
    var r := Insert(names, f, fs);
    if fs != [] && Key(names, f) > Key(names, fs[0]) {
      InsertPast(names, f, fs);
      InsertLowerBound(names, f, fs[1..], b);
      var rest := Insert(names, f, fs[1..]);
      forall k | 0 <= k < |r|
        ensures b <= Key(names, r[k])
      {
        if k > 0 {
          assert r[k] == rest[k - 1];
        }
      }
    } else {
      forall k | 0 <= k < |r|
        ensures b <= Key(names, r[k])
      {
        if k > 0 {
          assert r[k] == fs[k - 1];
        }
      }
    }
  }

  /** An element no larger than every element of a sorted list can go in front of it. */
  lemma SortedCons(names: seq<string>, x: Function, xs: seq<Function>)
    requires x.name in names && AllListed(names, xs) && SortedByKey(names, xs)
    requires forall k :: 0 <= k < |xs| ==> Key(names, x) <= Key(names, xs[k])
    ensures AllListed(names, [x] + xs) && SortedByKey(names, [x] + xs)
  {
    var r := [x] + xs;
    forall i, j | 0 <= i < j < |r|
      ensures Key(names, r[i]) <= Key(names, r[j])
    {
      assert r[j] == xs[j - 1];
      if i > 0 {
        assert r[i] == xs[i - 1];
      }
    }
  }

  /** The tail of a sorted list is sorted, and its head is no larger than any of it. */
  lemma SortedTail(names: seq<string>, fs: seq<Function>)
    requires AllListed(names, fs) && SortedByKey(names, fs) && fs != []
    ensures AllListed(names, fs[1..]) && SortedByKey(names, fs[1..])
    ensures forall k :: 0 <= k < |fs[1..]| ==> Key(names, fs[0]) <= Key(names, fs[1..][k])
  {
  }

  lemma {:induction false} InsertSorted(names: seq<string>, f: Function, fs: seq<Function>)
    requires f.name in names && AllListed(names, fs) && SortedByKey(names, fs)
    ensures SortedByKey(names, Insert(names, f, fs))
  {
    if fs != [] && Key(names, f) > Key(names, fs[0]) {
      SortedTail(names, fs);
      InsertSorted(names, f, fs[1..]);
      InsertSortedPast(names, f, fs);
    } else {
      assert Insert(names, f, fs) == [f] + fs;
      SortedCons(names, f, fs);
    }
  }

  /** The step of InsertSorted where f passes over the first element. */
  lemma InsertSortedPast(names: seq<string>, f: Function, fs: seq<Function>)
    requires f.name in names && AllListed(names, fs) && SortedByKey(names, fs)
    requires fs != [] && Key(names, f) > Key(names, fs[0])
    requires SortedByKey(names, Insert(names, f, fs[1..]))
    ensures SortedByKey(names, Insert(names, f, fs))
  {
    InsertPast(names, f, fs);
    SortedTail(names, fs);
    InsertLowerBound(names, f, fs[1..], Key(names, fs[0]));
    SortedCons(names, fs[0], Insert(names, f, fs[1..]));
  }

  lemma {:induction false} SortByKeySorted(names: seq<string>, fs: seq<Function>)
    requires AllListed(names, fs)
    ensures SortedByKey(names, SortByKey(names, fs))
  {
    if fs != [] {
      SortByKeySorted(names, fs[1..]);
      InsertSorted(names, fs[0], SortByKey(names, fs[1..]));
    }
  }

  /** The entries of fs that carry the name n, in their order in fs. */
  function Named(fs: seq<Function>, n: string): seq<Function> {
    if fs == [] then []
    else (if fs[0].name == n then [fs[0]] else []) + Named(fs[1..], n)
  }

  lemma NamedCons(x: Function, xs: seq<Function>, n: string)
    ensures Named([x] + xs, n) == (if x.name == n then [x] else []) + Named(xs, n)
  {
    assert ([x] + xs)[1..] == xs;
  }

  /** Insert places f ahead of every element of its own name. */
  lemma {:induction false} InsertNamed(names: seq<string>, f: Function, fs: seq<Function>, n: string)
    requires f.name in names && AllListed(names, fs)
    ensures Named(Insert(names, f, fs), n) == (if f.name == n then [f] else []) + Named(fs, n)
  {
    if fs == [] {
      NamedCons(f, [], n);
    } else if Key(names, f) <= Key(names, fs[0]) {
      NamedCons(f, fs, n);
    } else {
      InsertNamed(names, f, fs[1..], n);
      InsertNamedPast(names, f, fs, n);
    }
  }

  /** The step of InsertNamed where f passes over the first element. */
  lemma InsertNamedPast(names: seq<string>, f: Function, fs: seq<Function>, n: string)
    requires f.name in names && AllListed(names, fs)
    requires fs != [] && Key(names, f) > Key(names, fs[0])
    requires Named(Insert(names, f, fs[1..]), n) == (if f.name == n then [f] else []) + Named(fs[1..], n)
    ensures Named(Insert(names, f, fs), n) == (if f.name == n then [f] else []) + Named(fs, n)
  {
    InsertPast(names, f, fs);
    assert fs == [fs[0]] + fs[1..];
    NamedSwap(fs[0], f, Insert(names, f, fs[1..]), fs[1..], n);
  }

  /** f passes over an element only when that element has a smaller key, hence another name. */
  lemma InsertPast(names: seq<string>, f: Function, fs: seq<Function>)
    requires f.name in names && AllListed(names, fs)
    requires fs != [] && Key(names, f) > Key(names, fs[0])
    ensures Insert(names, f, fs) == [fs[0]] + Insert(names, f, fs[1..])
    ensures fs[0].name != f.name
  {
  }

  /** Putting an element of another name in front of both sides keeps f's place. */
  lemma NamedSwap(x: Function, f: Function, rest: seq<Function>, xs: seq<Function>, n: string)
    requires x.name != f.name
    requires Named(rest, n) == (if f.name == n then [f] else []) + Named(xs, n)
    ensures Named([x] + rest, n) == (if f.name == n then [f] else []) + Named([x] + xs, n)
  {
    NamedCons(x, rest, n);
    NamedCons(x, xs, n);
    if f.name == n {
      assert Named([x] + rest, n) == Named(rest, n);
      assert Named([x] + xs, n) == Named(xs, n);
    }
  }

  /** The sort is stable: for every name, the entries of that name keep their relative order.
      With SortByKeySorted and the multiset equation this fixes the result as the one
      Python's list.sort gives. */
  lemma {:induction false} SortByKeyStable(names: seq<string>, fs: seq<Function>, n: string)
    requires AllListed(names, fs)
    ensures Named(SortByKey(names, fs), n) == Named(fs, n)
  {
    if fs != [] {
      SortByKeyStable(names, fs[1..], n);
      InsertNamed(names, fs[0], SortByKey(names, fs[1..]), n);
    }
  }

  /** `fs.sort(key=lambda x: names.index(x.name))`: a ValueError when some name is not a
      member; otherwise a reordering of fs by member position. */
  function SortByMemberOrder(names: seq<string>, fs: seq<Function>): (r: Result<seq<Function>>)
    ensures r.Raised? <==> exists i :: 0 <= i < |fs| && fs[i].name !in names
    ensures r.Raised? ==> r.error == ValueError
    ensures r.Ok? ==> AllListed(names, r.value) && multiset(r.value) == multiset(fs)
    ensures r.Ok? ==> SortedByKey(names, r.value)
    ensures r.Ok? ==> forall n :: Named(r.value, n) == Named(fs, n)
  {
    if forall i :: 0 <= i < |fs| ==> fs[i].name in names then
      SortByKeySorted(names, fs);
      forall n
        ensures Named(SortByKey(names, fs), n) == Named(fs, n)
      {
        SortByKeyStable(names, fs, n);
      }
      Ok(SortByKey(names, fs))
    else Raised(ValueError)
  }

  // ----- The argument merge of Parser.parse -----

  /** The dict built by `d[function.name] = function.args`, later entries replacing earlier. */
  function ArgsMap(fs: seq<Function>): map<string, seq<Argument>> {
    if fs == [] then map[]
    else ArgsMap(fs[..|fs| - 1])[fs[|fs| - 1].name := fs[|fs| - 1].args]
  }

  /** Every parsed name is a key. */
  lemma {:induction false} ArgsMapHasName(fs: seq<Function>, i: nat)
    requires i < |fs|
    ensures fs[i].name in ArgsMap(fs)
  {
    if i < |fs| - 1 {
      var p := fs[..|fs| - 1];
      assert p[i] == fs[i];
      ArgsMapHasName(p, i);
    }
  }

  /** Every key is a parsed name. */
  lemma {:induction false} ArgsMapKeyParsed(fs: seq<Function>, n: string)
    requires n in ArgsMap(fs)
    ensures exists i :: 0 <= i < |fs| && fs[i].name == n
  {
    var p := fs[..|fs| - 1];
    if n == fs[|fs| - 1].name {
      assert fs[|fs| - 1].name == n;
    } else {
      ArgsMapKeyParsed(p, n);
      var i :| 0 <= i < |p| && p[i].name == n;
      assert fs[i].name == n;
    }
  }

  /** A name maps to the arguments of the last parsed function of that name. */
  lemma {:induction false} ArgsMapLast(fs: seq<Function>, i: nat)
    requires i < |fs| && forall j :: i < j < |fs| ==> fs[j].name != fs[i].name
    ensures fs[i].name in ArgsMap(fs) && ArgsMap(fs)[fs[i].name] == fs[i].args
  {
    if i < |fs| - 1 {
      var p := fs[..|fs| - 1];
      assert p[i] == fs[i];
      assert forall j :: i < j < |p| ==> p[j] == fs[j];
      ArgsMapLast(p, i);
    }
  }

  /** Parsing one more declaration sets its name's entry and leaves the others. */
  lemma ArgsMapSnoc(fs: seq<Function>, f: Function)
    ensures ArgsMap(fs + [f]) == ArgsMap(fs)[f.name := f.args]
  {
    assert (fs + [f])[..|fs|] == fs;
  }

  /** `d.get(name)`, and then Python truthiness of the list. */
  function Lookup(m: map<string, seq<Argument>>, name: string): seq<Argument> {
    if name in m then m[name] else []
  }

  /** The first pass leaves a plain function without IndexError: the X function, if it has
      arguments, has at most one more than the plain one. */
  predicate CanRetype(f: Function, x: seq<Argument>) {
    x == [] || |x| - 1 <= |f.args|
  }

  /** g is f after the first pass: argument i keeps its name and takes the type of the X
      function's argument i + 1; arguments beyond those keep their types. */
  ghost predicate IsRetyped(f: Function, x: seq<Argument>, g: Function) {
    && g.name == f.name && |g.args| == |f.args|
    && forall i :: 0 <= i < |f.args| ==>
         g.args[i] == if i + 1 < |x| then Argument(f.args[i].name, x[i + 1].typ) else f.args[i]
  }

  /** The second pass leaves an X function without IndexError: it has a first argument and,
      if the plain function has arguments, at least one more than it. */
  predicate CanRename(f: Function, plain: seq<Argument>) {
    |f.args| >= 1 && (plain == [] || |plain| + 1 <= |f.args|)
  }

  /** g is the X function f after the second pass: argument 0 is named self, argument i + 1
      takes the name of the plain function's argument i, and every argument keeps its type. */
  ghost predicate IsRenamed(f: Function, plain: seq<Argument>, g: Function)
    requires |f.args| >= 1
  {
    && g.name == f.name && |g.args| == |f.args|
    && g.args[0] == Argument("self", f.args[0].typ)
    && forall i :: 1 <= i < |f.args| ==>
         g.args[i] == if i - 1 < |plain| then Argument(plain[i - 1].name, f.args[i].typ) else f.args[i]
  }

  /** When the plain function has exactly one argument fewer than its X counterpart, the two
      passes make them agree: the X function is `self` followed by the plain arguments. */
  lemma MergedSignaturesAgree(p: Function, x: Function, p': Function, x': Function)
    requires |x.args| == |p.args| + 1
    requires IsRetyped(p, x.args, p') && IsRenamed(x, p.args, x')
    ensures x'.args == [Argument("self", x.args[0].typ)] + p'.args
  {
    assert forall i :: 0 <= i < |p'.args| ==> x'.args[i + 1] == p'.args[i];
  }

  /** Every plain function passes the first pass against the X functions' dict xa. */
  predicate AllRetypable(ps: seq<Function>, xa: map<string, seq<Argument>>) {
    forall k :: 0 <= k < |ps| ==> CanRetype(ps[k], Lookup(xa, ps[k].name))
  }

  /** Every X function passes the second pass against the plain functions' dict pa. */
  predicate AllRenamable(xs: seq<Function>, pa: map<string, seq<Argument>>) {
    forall k :: 0 <= k < |xs| ==> CanRename(xs[k], Lookup(pa, xs[k].name))
  }

  /** gs is ps after the first pass, function by function. */
  ghost predicate AllRetyped(ps: seq<Function>, xa: map<string, seq<Argument>>, gs: seq<Function>) {
    |gs| == |ps| && forall k :: 0 <= k < |ps| ==> IsRetyped(ps[k], Lookup(xa, ps[k].name), gs[k])
  }

  /** gs is xs after the second pass, function by function. */
  ghost predicate AllRenamed(xs: seq<Function>, pa: map<string, seq<Argument>>, gs: seq<Function>) {
    && |gs| == |xs|
    && forall k :: 0 <= k < |xs| ==>
         |xs[k].args| >= 1 && IsRenamed(xs[k], Lookup(pa, xs[k].name), gs[k])
  }

  /** The parser's state: the member lists read from the two headers, the parsed functions of
      each header and the two name-to-arguments dicts. */
  class Parser {
    const functionNames: seq<string>
    const xFunctionNames: seq<string>
    var functions: seq<Function>
    var xFunctions: seq<Function>
    var args: map<string, seq<Argument>>
    var xArgs: map<string, seq<Argument>>

    constructor (functionNames: seq<string>, xFunctionNames: seq<string>)
      ensures this.functionNames == functionNames && this.xFunctionNames == xFunctionNames
      ensures functions == [] && xFunctions == [] && args == map[] && xArgs == map[]
    {
      this.functionNames := functionNames;
      this.xFunctionNames := xFunctionNames;
      functions, xFunctions := [], [];
      args, xArgs := map[], map[];
    }

    /** __parse_function_lines over the already parsed declarations. */
    method ParseFunctionLines(parsed: seq<Function>) returns (r: Outcome)
      requires functions == [] && args == map[]
      modifies this`functions, this`args
      ensures args == ArgsMap(parsed)
      ensures r.Done? <==> SortByMemberOrder(functionNames, parsed).Ok?
      ensures r.Done? ==> functions == SortByMemberOrder(functionNames, parsed).value
      ensures r.Failed? ==> r.error == ValueError
    {
      var i := 0;
      while i < |parsed|
        invariant 0 <= i <= |parsed|
        invariant functions == parsed[..i] && args == ArgsMap(parsed[..i])
      {
        assert parsed[..i + 1] == parsed[..i] + [parsed[i]];
        ArgsMapSnoc(parsed[..i], parsed[i]);
        args := args[parsed[i].name := parsed[i].args];
        functions := functions + [parsed[i]];
        i := i + 1;
      }
      assert parsed[..i] == parsed;
      var sorted := SortByMemberOrder(functionNames, functions);
      if sorted.Raised? {
        return Failed(ValueError);
      }
      functions := sorted.value;
      r := Done;
    }

    /** __parse_x_function_lines over the already parsed declarations. */
    method ParseXFunctionLines(parsed: seq<Function>) returns (r: Outcome)
      requires xFunctions == [] && xArgs == map[]
      modifies this`xFunctions, this`xArgs
      ensures xArgs == ArgsMap(parsed)
      ensures r.Done? <==> SortByMemberOrder(xFunctionNames, parsed).Ok?
      ensures r.Done? ==> xFunctions == SortByMemberOrder(xFunctionNames, parsed).value
      ensures r.Failed? ==> r.error == ValueError
    {
      var i := 0;
      while i < |parsed|
        invariant 0 <= i <= |parsed|
        invariant xFunctions == parsed[..i] && xArgs == ArgsMap(parsed[..i])
      {
        assert parsed[..i + 1] == parsed[..i] + [parsed[i]];
        ArgsMapSnoc(parsed[..i], parsed[i]);
        xArgs := xArgs[parsed[i].name := parsed[i].args];
        xFunctions := xFunctions + [parsed[i]];
        i := i + 1;
      }
      assert parsed[..i] == parsed;
      var sorted := SortByMemberOrder(xFunctionNames, xFunctions);
      if sorted.Raised? {
        return Failed(ValueError);
      }
      xFunctions := sorted.value;
      r := Done;
    }

    /** The body of the first merge loop for one plain function. */
    static method Retype(f: Function, x: seq<Argument>) returns (r: Result<Function>)
      ensures r.Ok? <==> CanRetype(f, x)
      ensures r.Raised? ==> r.error == IndexError
      ensures r.Ok? ==> IsRetyped(f, x, r.value)
    {
      var a := f.args;
      var index := 0;
      while index + 1 < |x|
        invariant index == 0 || index < |x|
        invariant index <= |a| && |a| == |f.args|
        invariant forall i :: 0 <= i < |a| ==>
          a[i] == if i < index then Argument(f.args[i].name, x[i + 1].typ) else f.args[i]
      {
        if index >= |a| {
          return Raised(IndexError);
        }
        a := a[index := Argument(a[index].name, x[index + 1].typ)];
        index := index + 1;
      }
      r := Ok(Function(f.name, a));
    }

    /** The body of the second merge loop for one X function. */
    static method Rename(f: Function, plain: seq<Argument>) returns (r: Result<Function>)
      ensures r.Ok? <==> CanRename(f, plain)
      ensures r.Raised? ==> r.error == IndexError
      ensures r.Ok? ==> IsRenamed(f, plain, r.value)
    {
      if |f.args| == 0 {
        return Raised(IndexError);
      }
      var a := f.args[0 := Argument("self", f.args[0].typ)];
      var index := 0;
      while index < |plain|
        invariant 0 <= index <= |plain| && |a| == |f.args|
        invariant index + 1 <= |a|
        invariant a[0] == Argument("self", f.args[0].typ)
        invariant forall i :: 1 <= i < |a| ==>
          a[i] == if i - 1 < index then Argument(plain[i - 1].name, f.args[i].typ) else f.args[i]
      {
        if index + 1 >= |a| {
          return Raised(IndexError);
        }
        a := a[index + 1 := Argument(plain[index].name, a[index + 1].typ)];
        index := index + 1;
      }
      r := Ok(Function(f.name, a));
    }

    /** The two merge loops of Parser.parse. */
    method Merge() returns (r: Outcome)
      modifies this`functions, this`xFunctions
      ensures r.Done? <==> AllRetypable(old(functions), xArgs) && AllRenamable(old(xFunctions), args)
      ensures r.Failed? ==> r.error == IndexError
      ensures r.Done? ==> AllRetyped(old(functions), xArgs, functions)
      ensures r.Done? ==> AllRenamed(old(xFunctions), args, xFunctions)
    {
      var k := 0;
      while k < |functions|
        invariant 0 <= k <= |functions| == |old(functions)| && xFunctions == old(xFunctions)
        invariant functions[k..] == old(functions)[k..]
        invariant forall j :: 0 <= j < k ==> CanRetype(old(functions)[j], Lookup(xArgs, old(functions)[j].name))
        invariant forall j :: 0 <= j < k ==> IsRetyped(old(functions)[j], Lookup(xArgs, old(functions)[j].name), functions[j])
      {
        assert functions[k] == old(functions)[k] by { assert functions[k..][0] == old(functions)[k..][0]; }
        var g := Retype(functions[k], Lookup(xArgs, functions[k].name));
        if g.Raised? {
          return Failed(IndexError);
        }
        functions := functions[k := g.value];
        assert functions[k + 1..] == old(functions)[k + 1..] by {
          assert forall j :: k + 1 <= j < |functions| ==> functions[j] == old(functions)[k..][j - k];
        }
        k := k + 1;
      }
      k := 0;
      while k < |xFunctions|
        invariant 0 <= k <= |xFunctions| == |old(xFunctions)| && |functions| == |old(functions)|
        invariant xFunctions[k..] == old(xFunctions)[k..]
        invariant forall j :: 0 <= j < |functions| ==> IsRetyped(old(functions)[j], Lookup(xArgs, old(functions)[j].name), functions[j])
        invariant forall j :: 0 <= j < |functions| ==> CanRetype(old(functions)[j], Lookup(xArgs, old(functions)[j].name))
        invariant forall j :: 0 <= j < k ==> CanRename(old(xFunctions)[j], Lookup(args, old(xFunctions)[j].name))
        invariant forall j :: 0 <= j < k ==> |old(xFunctions)[j].args| >= 1 && IsRenamed(old(xFunctions)[j], Lookup(args, old(xFunctions)[j].name), xFunctions[j])
      {
        assert xFunctions[k] == old(xFunctions)[k] by { assert xFunctions[k..][0] == old(xFunctions)[k..][0]; }
        var g := Rename(xFunctions[k], Lookup(args, xFunctions[k].name));
        if g.Raised? {
          return Failed(IndexError);
        }
        xFunctions := xFunctions[k := g.value];
        assert xFunctions[k + 1..] == old(xFunctions)[k + 1..] by {
          assert forall j :: k + 1 <= j < |xFunctions| ==> xFunctions[j] == old(xFunctions)[k..][j - k];
        }
        k := k + 1;
      }
      r := Done;
    }

    /** Parser.parse after the two headers were read: both declaration lists are sorted into
        member order and then merged; the first exception ends the whole parse. */
    method Parse(parsed: seq<Function>, xParsed: seq<Function>) returns (r: Outcome)
      requires functions == [] && xFunctions == [] && args == map[] && xArgs == map[]
      modifies this`functions, this`xFunctions, this`args, this`xArgs
      ensures SortByMemberOrder(functionNames, parsed).Raised? ==> r == Failed(ValueError)
      ensures SortByMemberOrder(functionNames, parsed).Ok? && SortByMemberOrder(xFunctionNames, xParsed).Raised? ==>
        r == Failed(ValueError)
      ensures r == Failed(ValueError) ==>
        SortByMemberOrder(functionNames, parsed).Raised? || SortByMemberOrder(xFunctionNames, xParsed).Raised?
      ensures r.Done? || r.error == IndexError ==>
        SortByMemberOrder(functionNames, parsed).Ok? && SortByMemberOrder(xFunctionNames, xParsed).Ok?
      ensures r.Done? || r.error == IndexError ==>
        var ps, xs := SortByMemberOrder(functionNames, parsed).value, SortByMemberOrder(xFunctionNames, xParsed).value;
        (r.Done? <==> AllRetypable(ps, ArgsMap(xParsed)) && AllRenamable(xs, ArgsMap(parsed)))
      ensures r.Done? ==>
        var ps, xs := SortByMemberOrder(functionNames, parsed).value, SortByMemberOrder(xFunctionNames, xParsed).value;
        AllRetyped(ps, ArgsMap(xParsed), functions) && AllRenamed(xs, ArgsMap(parsed), xFunctions)
    {
      r := ParseFunctionLines(parsed);
      if r.Failed? {
        return;
      }
      r := ParseXFunctionLines(xParsed);
      if r.Failed? {
        return;
      }
      r := Merge();
    }
  }

  // ----- Code generation -----

  /** format_type: a type gets a separating space unless it already ends with '*' or ' '. */
  function FormatType(t: string): (r: string)
    ensures |r| > 0 && (r[|r| - 1] == '*' || r[|r| - 1] == ' ')
    ensures if |t| > 0 && (t[|t| - 1] == '*' || t[|t| - 1] == ' ') then r == t else r == t + " "
  {
    if |t| > 0 && (t[|t| - 1] == '*' || t[|t| - 1] == ' ') then t else t + " "
  }

  /** Formatting a type twice is formatting it once. */
  lemma FormatTypeIdempotent(t: string)
    ensures FormatType(FormatType(t)) == FormatType(t)
  {
  }

  /** `sep.join(xs)` */
  function Join(sep: string, xs: seq<string>): string {
    if xs == [] then ""
    else if |xs| == 1 then xs[0]
    else xs[0] + sep + Join(sep, xs[1..])
  }

  /** FunctionTemplate.get_args: the argument names, in order. */
  function GetArgs(f: Function): (r: seq<string>)
    ensures |r| == |f.args| && forall i :: 0 <= i < |r| ==> r[i] == f.args[i].name
    decreases |f.args|
  {
    if f.args == [] then [] else [f.args[0].name] + GetArgs(Function(f.name, f.args[1..]))
  }

  /** FunctionTemplate.args */
  function Args(f: Function): string {
    Join(", ", GetArgs(f))
  }

  /** FunctionTemplate.args2: the call arguments without the first (self). */
  function Args2(f: Function): string {
    if f.args == [] then "" else Join(", ", GetArgs(f)[1..])
  }

  /** args2 is args with the first argument dropped: it is the args of the function without
      its first argument, and args is the first name, a separator and args2. */
  lemma Args2DropsFirst(f: Function)
    requires |f.args| >= 1
    ensures Args2(f) == Args(Function(f.name, f.args[1..]))
    ensures |f.args| >= 2 ==> Args(f) == f.args[0].name + ", " + Args2(f)
    ensures |f.args| == 1 ==> Args(f) == f.args[0].name && Args2(f) == ""
  {
    assert GetArgs(f)[1..] == GetArgs(Function(f.name, f.args[1..]));
  }

  /** The wrapper name template of each generated file. */
  datatype Kind = Base | Stack

  /** wrapper_function_name of BaseFileTemplate and StackFileTemplate. */
  function WrapperName(k: Kind, f: Function): string {
    (match k case Base => "base_C_" case Stack => "stack_C_") + f.name
  }

  /** Wrapper names of one kind are distinct for distinct functions, and the two kinds never
      share a name. */
  lemma WrapperNamesDistinct(k: Kind, f: Function, g: Function)
    ensures WrapperName(k, f) == WrapperName(k, g) ==> f.name == g.name
    ensures WrapperName(Base, f) != WrapperName(Stack, g)
  {
    var p := if k == Base then "base_C_" else "stack_C_";
    if WrapperName(k, f) == WrapperName(k, g) {
      assert f.name == WrapperName(k, f)[|p|..];
      assert g.name == WrapperName(k, g)[|p|..];
    }
    assert WrapperName(Base, f)[0] == 'b' && WrapperName(Stack, g)[0] == 's';
  }

  function Repeat(c: char, n: nat): (r: string)
    ensures |r| == n && forall i :: 0 <= i < n ==> r[i] == c
  {
    if n == 0 then "" else [c] + Repeat(c, n - 1)
  }

  /** P11_INDENT_RE.sub('\t', s): every run of eight spaces, scanning left to right, becomes
      one tab. */
  function SubEightSpaces(s: string): string {
    if |s| >= 8 && s[..8] == Repeat(' ', 8) then "\t" + SubEightSpaces(s[8..])
    else if s == "" then ""
    else [s[0]] + SubEightSpaces(s[1..])
  }

  /** The indent of the continuation lines of an argument list: n spaces with every eight of
      them turned into a tab. */
  function Indent(n: nat): string {
    SubEightSpaces(Repeat(' ', n))
  }

  lemma {:induction false} SpacesBelowEight(n: nat)
    requires n < 8
    ensures SubEightSpaces(Repeat(' ', n)) == Repeat(' ', n)
  {
    if n > 0 {
      assert Repeat(' ', n)[1..] == Repeat(' ', n - 1);
      SpacesBelowEight(n - 1);
    }
  }

  /** The indent is n / 8 tabs followed by n % 8 spaces. */
  lemma {:induction false} IndentShape(n: nat)
    ensures Indent(n) == Repeat('\t', n / 8) + Repeat(' ', n % 8)
  {
    if n < 8 {
      SpacesBelowEight(n);
    } else {
      assert Repeat(' ', n)[..8] == Repeat(' ', 8);
      assert Repeat(' ', n)[8..] == Repeat(' ', n - 8);
      IndentShape(n - 8);
      assert (n - 8) / 8 == n / 8 - 1 && (n - 8) % 8 == n % 8;
      assert Repeat('\t', n / 8) == "\t" + Repeat('\t', n / 8 - 1);
    }
  }

  /** The display column after text starting at column 0, with tab stops every eight columns. */
  function Column(s: string): nat {
    if s == "" then 0
    else
      var c := Column(s[..|s| - 1]);
      if s[|s| - 1] == '\t' then (c / 8 + 1) * 8 else c + 1
  }

  lemma {:induction false} ColumnOfSpaces(prefix: string, n: nat)
    ensures Column(prefix + Repeat(' ', n)) == Column(prefix) + n
  {
    if n > 0 {
      var s := prefix + Repeat(' ', n);
      assert s[..|s| - 1] == prefix + Repeat(' ', n - 1);
      assert s[|s| - 1] == ' ';
      assert Column(s) == Column(prefix + Repeat(' ', n - 1)) + 1;
      ColumnOfSpaces(prefix, n - 1);
    } else {
      assert prefix + Repeat(' ', n) == prefix;
    }
  }

  lemma {:induction false} ColumnOfTabs(n: nat)
    ensures Column(Repeat('\t', n)) == 8 * n
  {
    if n > 0 {
      assert Repeat('\t', n) == Repeat('\t', n - 1) + "\t";
      assert Repeat('\t', n)[..n - 1] == Repeat('\t', n - 1);
      ColumnOfTabs(n - 1);
    }
  }

  /** The continuation lines of an argument list line up under the first argument: the
      indent ends at the column after `<wrapper name> (`. */
  lemma IndentAligns(wname: string)
    ensures Column(Indent(|wname + " ("|)) == |wname + " ("|
  {
    var n := |wname + " ("|;
    IndentShape(n);
    ColumnOfTabs(n / 8);
    ColumnOfSpaces(Repeat('\t', n / 8), n % 8);
  }

  /** The ASCII characters for which Python's str.isspace holds: space, \t, \n, \v, \f, \r
      and the separators \x1c to \x1f. */
  predicate IsSpace(c: char) {
    c == ' ' || c == '\t' || c == '\n' || c == '\r' || c == '\U{000B}' || c == '\U{000C}'
    || ('\U{001C}' <= c <= '\U{001F}')
  }

  ghost predicate AllSpace(t: string) {
    forall k :: 0 <= k < |t| ==> IsSpace(t[k])
  }

  /** r is s with white-space margins cut off. */
  ghost predicate TrimOf(s: string, r: string) {
    exists i, j :: 0 <= i <= j <= |s| && r == s[i..j] && AllSpace(s[..i]) && AllSpace(s[j..])
  }

  lemma AllSpaceCons(c: char, t: string)
    requires IsSpace(c) && AllSpace(t)
    ensures AllSpace([c] + t)
  {
    var u := [c] + t;
    forall k | 0 <= k < |u|
      ensures IsSpace(u[k])
    {
      if k > 0 {
        assert u[k] == t[k - 1];
      }
    }
  }

  lemma AllSpaceSnoc(t: string, c: char)
    requires AllSpace(t) && IsSpace(c)
    ensures AllSpace(t + [c])
  {
    var u := t + [c];
    forall k | 0 <= k < |u|
      ensures IsSpace(u[k])
    {
      if k < |t| {
        assert u[k] == t[k];
      }
    }
  }

  /** A leading white-space character widens the left margin. */
  lemma TrimFront(s: string, r: string)
    requires s != "" && IsSpace(s[0]) && TrimOf(s[1..], r)
    ensures TrimOf(s, r)
  {
    var t := s[1..];
    var i, j :| 0 <= i <= j <= |t| && r == t[i..j] && AllSpace(t[..i]) && AllSpace(t[j..]);
    TrimFrontAt(s, r, i, j);
  }

  lemma TrimFrontAt(s: string, r: string, i: nat, j: nat)
    requires s != "" && IsSpace(s[0]) && i <= j <= |s| - 1
    requires r == s[1..][i..j] && AllSpace(s[1..][..i]) && AllSpace(s[1..][j..])
    ensures TrimOf(s, r)
  {
    var t := s[1..];
    assert s[i + 1..j + 1] == t[i..j];
    assert s[..i + 1] == [s[0]] + t[..i];
    AllSpaceCons(s[0], t[..i]);
    assert s[j + 1..] == t[j..];
    assert 0 <= i + 1 <= j + 1 <= |s| && r == s[i + 1..j + 1] && AllSpace(s[..i + 1]) && AllSpace(s[j + 1..]);
  }

  /** A trailing white-space character widens the right margin. */
  lemma TrimBack(s: string, r: string)
    requires s != "" && IsSpace(s[|s| - 1]) && TrimOf(s[..|s| - 1], r)
    ensures TrimOf(s, r)
  {
    var t := s[..|s| - 1];
    var i, j :| 0 <= i <= j <= |t| && r == t[i..j] && AllSpace(t[..i]) && AllSpace(t[j..]);
    TrimBackAt(s, r, i, j);
  }

  lemma TrimBackAt(s: string, r: string, i: nat, j: nat)
    requires s != "" && IsSpace(s[|s| - 1]) && i <= j <= |s| - 1
    requires r == s[..|s| - 1][i..j] && AllSpace(s[..|s| - 1][..i]) && AllSpace(s[..|s| - 1][j..])
    ensures TrimOf(s, r)
  {
    var t := s[..|s| - 1];
    assert s[i..j] == t[i..j];
    assert s[..i] == t[..i];
    assert s[j..] == t[j..] + [s[|s| - 1]];
    AllSpaceSnoc(t[j..], s[|s| - 1]);
    assert 0 <= i <= j <= |s| && r == s[i..j] && AllSpace(s[..i]) && AllSpace(s[j..]);
  }

  /** str.strip() over ASCII white space: s with its white-space margins cut off, and no
      white space left at either end. */
  function Strip(s: string): (r: string)
    ensures r != "" ==> !IsSpace(r[0]) && !IsSpace(r[|r| - 1])
    ensures TrimOf(s, r)
  {
    if s == "" then
      assert s[0..0] == "" && s[..0] == "" && s[0..] == "";
      ""
    else if IsSpace(s[0]) then
      TrimFront(s, Strip(s[1..]));
      Strip(s[1..])
    else if IsSpace(s[|s| - 1]) then
      TrimBack(s, Strip(s[..|s| - 1]));
      Strip(s[..|s| - 1])
    else
      assert s == s[0..|s|] && s[..0] == "" && s[|s|..] == "";
      s
  }

  /** FunctionTemplate.get_arglist: one indented `<type> <name>` per argument. */
  function ArgLines(indent: string, a: seq<Argument>): (r: seq<string>)
    ensures |r| == |a| && forall i :: 0 <= i < |a| ==> r[i] == indent + FormatType(a[i].typ) + a[i].name
  {
    if a == [] then [] else [indent + FormatType(a[0].typ) + a[0].name] + ArgLines(indent, a[1..])
  }

  /** FunctionTemplate.arglist */
  function ArgList(f: Function, wname: string): string {
    Strip(Join(",\n", ArgLines(Indent(|wname + " ("|), f.args)))
  }

  /** The text of BaseFunctionTemplate or StackFunctionTemplate for one X function. */
  function FunctionBody(k: Kind, f: Function): string {
    var wname := WrapperName(k, f);
    var lower := match k
      case Base => "\tCK_FUNCTION_LIST *funcs = virt->lower_module;\n"
      case Stack => "\tCK_X_FUNCTION_LIST *funcs = virt->lower_module;\n";
    var call := match k
      case Base => "\treturn funcs->C_" + f.name + " (" + Args2(f) + ");\n"
      case Stack => "\treturn funcs->C_" + f.name + " (funcs, " + Args2(f) + ");\n";
    "static CK_RV\n" + wname + " (" + ArgList(f, wname) + ")\n{\n"
      + "\tp11_virtual *virt = (p11_virtual *)self;\n" + lower + call + "}\n"
  }

  /** The X functions that get a generated body: those not excluded, in order. */
  function Kept(fs: seq<Function>, exclude: seq<string>): (r: seq<Function>)
    ensures |r| <= |fs|
    ensures forall f :: f in r <==> f in fs && f.name !in exclude
  {
    if fs == [] then []
    else (if fs[0].name in exclude then [] else [fs[0]]) + Kept(fs[1..], exclude)
  }

  /** Filtering keeps the original order: it distributes over concatenation. */
  lemma {:induction false} KeptAppend(a: seq<Function>, b: seq<Function>, exclude: seq<string>)
    ensures Kept(a + b, exclude) == Kept(a, exclude) + Kept(b, exclude)
  {
    if a == [] {
      assert a + b == b;
    } else {
      assert (a + b)[1..] == a[1..] + b;
      KeptAppend(a[1..], b, exclude);
    }
  }

  /** The `result` list of FileTemplate.function_list. */
  function Bodies(k: Kind, fs: seq<Function>, exclude: seq<string>): seq<string> {
    if fs == [] then []
    else (if fs[0].name in exclude then [] else [FunctionBody(k, fs[0])]) + Bodies(k, fs[1..], exclude)
  }

  /** The body of each function of fs, in order. */
  function BodiesOf(k: Kind, fs: seq<Function>): (r: seq<string>)
    ensures |r| == |fs| && forall i :: 0 <= i < |fs| ==> r[i] == FunctionBody(k, fs[i])
  {
    if fs == [] then [] else [FunctionBody(k, fs[0])] + BodiesOf(k, fs[1..])
  }

  /** One body per kept function, in order. */
  lemma {:induction false} BodiesOfKept(k: Kind, fs: seq<Function>, exclude: seq<string>)
    ensures Bodies(k, fs, exclude) == BodiesOf(k, Kept(fs, exclude))
  {
    if fs != [] {
      BodiesOfKept(k, fs[1..], exclude);
      var rest := Kept(fs[1..], exclude);
      if fs[0].name in exclude {
        assert Kept(fs, exclude) == rest;
      } else {
        assert Kept(fs, exclude) == [fs[0]] + rest;
        assert ([fs[0]] + rest)[1..] == rest;
      }
    }
  }

  /** FileTemplate.function_list */
  function FunctionList(k: Kind, fs: seq<Function>, exclude: seq<string>): string {
    Join("\n", Bodies(k, fs, exclude))
  }

  /** The `result` list of FileTemplate.initializer_list: one entry per X function, in order;
      an excluded one is left NULL. */
  function Initializers(k: Kind, fs: seq<Function>, exclude: seq<string>): (r: seq<string>)
    ensures |r| == |fs|
    ensures forall i :: 0 <= i < |fs| ==>
      r[i] == if fs[i].name in exclude then "\tNULL" else "\t" + WrapperName(k, fs[i])
  {
    if fs == [] then []
    else ([if fs[0].name in exclude then "\tNULL" else "\t" + WrapperName(k, fs[0])]
      + Initializers(k, fs[1..], exclude))
  }

  /** FileTemplate.initializer_list */
  function InitializerList(k: Kind, fs: seq<Function>, exclude: seq<string>): string {
    Join(",\n", Initializers(k, fs, exclude))
  }

  /** BaseFileTemplate / StackFileTemplate: the forwarders, then the p11_virtual_base or
      p11_virtual_stack table. */
  function FileText(k: Kind, fs: seq<Function>, exclude: seq<string>): string {
    var table := match k case Base => "p11_virtual_base" case Stack => "p11_virtual_stack";
    FunctionList(k, fs, exclude) + "\n\nCK_X_FUNCTION_LIST " + table + " = {\n"
      + "\t{ CRYPTOKI_VERSION_MAJOR, CRYPTOKI_VERSION_MINOR },  /* version */\n"
      + InitializerList(k, fs, exclude) + "\n};\n"
  }

  /** Every table entry names a forwarder the same file defines, or is NULL: the name in
      entry i has a body exactly when function i is not excluded. */
  lemma InitializersMatchBodies(k: Kind, fs: seq<Function>, exclude: seq<string>, i: nat)
    requires i < |fs| && fs[i].name !in exclude
    ensures Initializers(k, fs, exclude)[i] == "\t" + WrapperName(k, fs[i])
    ensures exists j :: 0 <= j < |Bodies(k, fs, exclude)| && Bodies(k, fs, exclude)[j] == FunctionBody(k, fs[i])
  {
    BodiesOfKept(k, fs, exclude);
    assert fs[i] in Kept(fs, exclude);
    var j :| 0 <= j < |Kept(fs, exclude)| && Kept(fs, exclude)[j] == fs[i];
    assert Bodies(k, fs, exclude)[j] == FunctionBody(k, fs[i]);
  }
}
