/**
 The adapters declared in the repository's tests, the host struct that uses
 one through `adapter_accessors!`, and the two test scenarios.

 - `StringSource<T>`: output `String`, default `String::default()` (""),
   a literal `Str(String)` or a boxed `Func(Fn(&T) -> String)`.
 - `IntSource`: output `i64`, default `i64::default()` (0), a literal
   `Int(i64)` or a boxed `Func(Fn() -> i64)`; declared without a context,
   so its context is `()`.
 - `MyStruct`: a `val: i64` and a `name: StringSource<MyStruct>` with the
   accessor pair `get_name`/`set_name`.
 */
module Instances {
  import opened Adapters
  import Decimal

  newtype int64 = x: int | -0x8000_0000_0000_0000 <= x < 0x8000_0000_0000_0000

  /** A held `StringSource<T>` adapter. */
  type StringSource<T(!new)> = AdapterCell<T, string>

  const StringDefault: string := ""

  /** A held `IntSource` adapter. */
  type IntSource = AdapterCell<(), int64>

  const IntDefault: int64 := 0

  /** What a `name` callable sees of its host: the fields other than the adapter. */
  datatype View = View(val: int64)

  /** The callable of the struct test: `format!("s1:{}", ms.val)`. */
  function S1Label(ms: View): string {
    "s1:" + Decimal.IntToDecimal(ms.val as int)
  }

  /** The label tells the host's `val`: different values give different names. */
  lemma S1LabelInjective(a: View, b: View)
    ensures S1Label(a) == S1Label(b) <==> a == b
  {
    if S1Label(a) == S1Label(b) {
      assert S1Label(a)[3..] == Decimal.IntToDecimal(a.val as int);
      assert S1Label(b)[3..] == Decimal.IntToDecimal(b.val as int);
      Decimal.IntToDecimalInjective(a.val as int, b.val as int);
    }
  }

  /** The host struct of the tests, with the context form of `adapter_accessors!`. */
  class MyStruct {
    var val: int64
    const name: StringSource<View>

    /** `MyStruct { val, name: Default::default() }` */
    constructor (val: int64)
      ensures this.val == val && fresh(name)
      ensures name.value == Default() && Valid()
    {
      this.val := val;
      name := new AdapterCell(StringDefault);
    }

    /** The default of `name` is that of `StringSource`, `String::default()`. */
    predicate Valid() {
      name.def == StringDefault
    }

    /** The host as the context of its own adapter. */
    function Snapshot(): View
      reads this
    {
      View(val)
    }

    /** `get_name`: the field's `get`, with the host itself as context. */
    function GetName(): (r: string)
      reads this, name
      requires Valid()
      ensures name.value.Func? ==> r == name.value.f(View(val))
      ensures name.value.Lit? ==> r == name.value.value
      ensures name.value.None? ==> r == StringDefault
    {
      name.Get(Snapshot())
    }

    /** `set_name` with a `String`: only the `name` field changes. */
    method SetName(s: string)
      requires Valid()
      modifies name
      ensures name.value == FromLit(s) && val == old(val)
      ensures GetName() == s
    {
      name.SetLit(s);
    }

    /** `set_name` with a closure over the host: only the `name` field changes. */
    method SetNameFunc(f: View -> string)
      requires Valid()
      modifies name
      ensures name.value == FromFunc(f) && val == old(val)
      ensures GetName() == f(View(val))
    {
      name.SetFunc(f);
    }
  }

  /**
   A host of an `IntSource` field with the context-free form of
   `adapter_accessors!`: the getter calls the field's `get` without a context.
   */
  class IntHost {
    const count: IntSource

    constructor ()
      ensures fresh(count)
      ensures count.value == Default() && Valid()
    {
      count := new AdapterCell(IntDefault);
    }

    /** The default of `count` is that of `IntSource`, `i64::default()`. */
    predicate Valid() {
      count.def == IntDefault
    }

    function GetCount(): (r: int64)
      reads count
      requires Valid()
      ensures count.value.Func? ==> r == count.value.f(())
      ensures count.value.Lit? ==> r == count.value.value
      ensures count.value.None? ==> r == IntDefault
    {
      count.Get(())
    }

    method SetCount(v: int64)
      requires Valid()
      modifies count
      ensures count.value == FromLit(v)
      ensures GetCount() == v
    {
      count.SetLit(v);
    }

    method SetCountFunc(f: () -> int64)
      requires Valid()
      modifies count
      ensures count.value.Func? && GetCount() == f()
    {
      count.SetFunc(_ => f());
    }
  }

  /**
   `test_adaptor_in_struct`: the names read after each step. The callable is
   evaluated when the name is read, so writing `val` alone changes the name.
   */
  method AdaptorInStruct() returns (names: seq<string>)
    ensures names == ["", "s1", "s1:3", "s1:42"]
  {
    var s1 := new MyStruct(3);
    var n0 := s1.GetName();
    assert n0 == "";

    s1.SetName("s1");
    var n1 := s1.GetName();
    assert n1 == "s1";

    s1.SetNameFunc(S1Label);
    var n2 := s1.GetName();
    assert n2 == "s1:3";

    s1.val := 42;
    var n3 := s1.GetName();
    assert n3 == "s1:42";

    names := [n0, n1, n2, n3];
  }

  /**
   After `set_name` with the label closure, two reads of `get_name` around a
   write of `val` alone differ exactly when the two values differ.
   */
  method NameFollowsVal(w1: int64, w2: int64) returns (n1: string, n2: string)
    ensures n1 == S1Label(View(w1)) && n2 == S1Label(View(w2))
    ensures n1 == n2 <==> w1 == w2
  {
    var s1 := new MyStruct(w1);
    s1.SetNameFunc(S1Label);
    n1 := s1.GetName();
    s1.val := w2;
    n2 := s1.GetName();
    S1LabelInjective(View(w1), View(w2));
  }

  /** `test_adaptor_variable`: the values read after each step. */
  method AdaptorVariable() returns (values: seq<int64>)
    ensures values == [0, 7, 42]
  {
    var a1: IntSource := new AdapterCell(IntDefault);
    var v0 := a1.Get(());

    a1.SetLit(7);
    var v1 := a1.Get(());

    a1.SetFunc(_ => 42);
    var v2 := a1.Get(());

    values := [v0, v1, v2];
  }
}
