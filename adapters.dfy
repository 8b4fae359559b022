/**
 What `adapter_decl!` generates for one adapter type, with the macro grammar
 expanded: an enum with a literal case, a boxed-callable case and a trailing
 `None`; `get`, which dispatches on the active case; `set`, which replaces the
 whole value; `Default`, which is `None`; and one `From` per case.

 `C` is the context type handed to `get` (the unit type `()` for an adapter
 declared without one) and `O` the output type. The getter expressions of the
 two cases are the ones every declaration in the repository uses: the literal
 case returns (a copy of) its payload, the callable case calls its payload on
 the context.
 */
module Adapters {

  datatype Adapter<!C, O> = Lit(value: O) | Func(f: C -> O) | None
  {
    /** `get`: the payload's getter for a payload case, the declared default for `None`. */
    function Get(ctx: C, def: O): O {
      match this
      case Lit(v) => v
      case Func(g) => g(ctx)
      case None => def
    }
  }

  /** `Default::default()`: whatever the context, `get` yields the declared default. */
  function Default<C(!new), O(!new)>(): (r: Adapter<C, O>)
    ensures r.None?
    ensures forall ctx: C, def: O :: r.Get(ctx, def) == def
  {
    None
  }

  /** `From` for the plain case: the value is stored unchanged and `get` hands it back. */
  function FromLit<C(!new), O(!new)>(v: O): (r: Adapter<C, O>)
    ensures r.Lit?
    ensures forall ctx: C, def: O :: r.Get(ctx, def) == v
  {
    Lit(v)
  }

  /** `From` for the boxed case: the callable itself is stored, so `get` calls it on each context. */
  function FromFunc<C(!new), O(!new)>(f: C -> O): (r: Adapter<C, O>)
    ensures r.Func?
    ensures forall ctx: C, def: O :: r.Get(ctx, def) == f(ctx)
  {
    Func(f)
  }

  /** Only the callable case looks at the context. */
  lemma {:induction false} GetIgnoresContextUnlessFunc<C, O>(a: Adapter<C, O>, c1: C, c2: C, def: O)
    ensures !a.Func? ==> a.Get(c1, def) == a.Get(c2, def)
  {
  }

  /** Only the `None` case uses the default expression. */
  lemma {:induction false} GetIgnoresDefaultUnlessNone<C, O>(a: Adapter<C, O>, ctx: C, d1: O, d2: O)
    ensures !a.None? ==> a.Get(ctx, d1) == a.Get(ctx, d2)
  {
  }

  /**
   An adapter value held in place, as a variable or a struct field is in the
   source; `def` is the default expression of its declaration.
   */
  class AdapterCell<C(!new), O(!new)> {
    var value: Adapter<C, O>
    const def: O

    /** A default-constructed adapter: the `None` case. */
    constructor (def: O)
      ensures value == Default() && this.def == def
      ensures forall ctx: C :: Get(ctx) == def
    {
      value := None;
      this.def := def;
    }

    /** `get(&self, ctx)`: reads the cell and changes nothing. */
    function Get(ctx: C): O
      reads this
    {
      value.Get(ctx, def)
    }

    /** `set` with a literal: the previous case, whatever it was, is replaced. */
    method SetLit(v: O)
      modifies this
      ensures value == FromLit(v)
      ensures forall ctx: C :: Get(ctx) == v
    {
      value := FromLit(v);
    }

    /** `set` with a callable: the previous case, whatever it was, is replaced. */
    method SetFunc(f: C -> O)
      modifies this
      ensures value == FromFunc(f)
      ensures forall ctx: C :: Get(ctx) == f(ctx)
    {
      value := FromFunc(f);
    }
  }
}
