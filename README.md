# adapter — a Dafny model of the generated adapter unions

The `adapter` crate is a set of `macro_rules!` macros. `adapter_decl!`
declares an *adapter*: an enum whose cases hold either a literal of the
output type or a boxed callable that produces one, plus a trailing `None`.
The macro also generates four pieces of code:

- `get` dispatches on the active case. A literal is returned as a copy. A
  callable is called, with the context argument when the declaration has
  one. `None` evaluates the declared default expression.
- `set` overwrites the whole value with `From::from` of its argument.
- `Default` yields `None`.
- There is one `From` impl per case. A boxed case stores the callable itself.

`adapter_accessors!` adds a getter/setter pair to a host struct. Both only
delegate to one adapter field. In the context form the getter passes the host
itself as the context.

This project models what those macros expand to, not the macro grammar.

- `adapters.dfy`, module `Adapters`: the generic enum
  `Adapter<C, O> = Lit | Func | None` and its `Get`, as well as `Default`,
  `FromLit` and `FromFunc`. A class `AdapterCell` holds an adapter in place.
  Its `set` becomes two methods, `SetLit` and `SetFunc`, one per `From` impl.
  A declaration without a context uses the unit context `()`.
- `instances.dfy`, module `Instances`: the declarations in the tests.
  - `StringSource<T>` is a cell of an `Adapter<T, string>` with default `""`.
  - `IntSource` is a cell of an `Adapter<(), int64>` with default `0`.
  - The host `MyStruct` is a class with `val` and a `name` cell, plus
    `GetName`/`SetName`/`SetNameFunc`.
  - `IntHost` shows the context-free accessor form.
  - Both test scenarios are methods that return the sequence of values read.
- `decimal.dfy`, module `Decimal`: how `format!("{}", …)` renders an `i64`,
  with a read-back function. The read-back is used to prove that the rendering
  is injective.

## Model

| member | source | states |
|---|---|---|
| `Adapters.Adapter.Get` | src/lib.rs:24-29 | `get` as a `match` on the active case; it has no contract of its own: its result in each case is stated by `Default`, `FromLit`, `FromFunc` and the two `GetIgnores…` lemmas |
| `Adapters.Default` | src/lib.rs:34-41 | the default adapter's `get` returns the declared default expression, for every context |
| `Adapters.FromLit` | src/lib.rs:44-50 | the plain `From` stores the value in the literal case; `get` then returns that value, whatever the context and default |
| `Adapters.FromFunc` | src/lib.rs:52-57 | the boxed `From` stores the callable in the callable case; `get` then returns the callable applied to the context given to `get` |
| `Adapters.GetIgnoresContextUnlessFunc` | src/lib.rs:24-29 | only the callable case's `get` depends on the context argument |
| `Adapters.GetIgnoresDefaultUnlessNone` | src/lib.rs:24-29 | only the `None` case's `get` uses the default expression |
| `Adapters.AdapterCell.constructor` | src/lib.rs:37-39 | a default-constructed adapter is `None`, and its `get` yields the default for every context |
| `Adapters.AdapterCell.Get` | src/lib.rs:24-29 | `get(&self, ctx)` on a held adapter: `Adapter.Get` of the current value with the declaration's default; a function, so it changes nothing |
| `Adapters.AdapterCell.SetLit` | src/lib.rs:21-23 | `set` with a literal makes the adapter equal `From` of it, discarding the previous case; `get` then returns the literal |
| `Adapters.AdapterCell.SetFunc` | src/lib.rs:21-23 | `set` with a callable makes the adapter equal `From` of it, discarding the previous case; `get` then calls it on the context |
| `Decimal.NatToDecimal` | tests/tests.rs:34 | the digits of a natural number: non-empty, all digits, starting with `0` only for zero, one digit exactly below ten |
| `Decimal.NatToDecimalRoundTrip` | tests/tests.rs:34 | reading the digits back gives the number |
| `Decimal.IntToDecimal` | tests/tests.rs:34 | `{}` of an integer: a minus sign exactly for negatives, followed by canonical digits (no leading zero, one digit exactly when the magnitude is below ten, so zero is `"0"`) |
| `Decimal.IntToDecimalRoundTrip` | tests/tests.rs:34 | reading a rendering back gives the integer |
| `Decimal.IntToDecimalInjective` | tests/tests.rs:34 | two integers render alike exactly when they are equal |
| `Instances.S1Label` | tests/tests.rs:34 | the closure: `"s1:"` followed by the `{}` rendering of `val`; it has no contract of its own, and its meaning is fixed by `Decimal.IntToDecimal` and `S1LabelInjective` |
| `Instances.S1LabelInjective` | tests/tests.rs:34-38 | `"s1:{val}"` determines `val`: hosts with different `val` get different names |
| `Instances.MyStruct.constructor` | tests/tests.rs:28 | `MyStruct { val, name: Default::default() }` has the given `val` and a `None` name with default `""` |
| `Instances.MyStruct.Snapshot` | src/lib.rs:97 | the host's current `val`, passed as the context of `name.get`; it has no contract of its own and is read through `GetName` |
| `Instances.MyStruct.GetName` | src/lib.rs:96-98 | `get_name` is the field's `get` with the host's current fields as context: a stored callable is applied to them, a literal is returned, `None` gives `""` (`String::default()`) |
| `Instances.MyStruct.SetName` | src/lib.rs:93-95 | `set_name` with a string replaces only `name`; `get_name` then returns that string |
| `Instances.MyStruct.SetNameFunc` | src/lib.rs:93-95 | `set_name` with a closure replaces only `name`; `get_name` then returns the closure applied to the current host |
| `Instances.IntHost.constructor` | src/lib.rs:37-39 | a host whose `IntSource` field is default-constructed: `None`, with default `0` |
| `Instances.IntHost.GetCount` | src/lib.rs:104-106 | the context-free getter is the field's `get` with no context: a stored callable is called, a literal is returned, `None` gives `0` (`i64::default()`) |
| `Instances.IntHost.SetCount` | src/lib.rs:101-103 | the context-free setter with a literal replaces the field; the getter then returns it |
| `Instances.IntHost.SetCountFunc` | src/lib.rs:101-103 | the context-free setter with a closure stores it; the getter then returns its result |
| `Instances.AdaptorInStruct` | tests/tests.rs:27-39 | reading `get_name` after each step gives `""`, `"s1"`, `"s1:3"` and then `"s1:42"`; the last comes after writing only `val` |
| `Instances.NameFollowsVal` | tests/tests.rs:34-38 | after `set_name` with the `"s1:{val}"` closure, reads of `get_name` before and after writing only `val` are the labels of the two values, and differ exactly when the values do |
| `Instances.AdaptorVariable` | tests/tests.rs:42-51 | reading `get` gives `0` on `IntSource::None`, `7` after `set(7)` and `42` after `set(\|\| 42)` |

`Get` never changes anything in this model. `Adapter.Get`,
`AdapterCell.Get` and `MyStruct.GetName` are functions, so calling one twice
with the same context and state gives the same result.

`get` on `None` evaluates the default expression fixed in the declaration
(src/lib.rs:27); the caller does not supply it. Each cell holds that
expression's value as the constant `AdapterCell.def`, and the hosts'
`Valid()` ties it to `""` for `StringSource` and to `0` for `IntSource`.

## Left out

- The `macro_rules!` grammar, repetition and hygiene (src/lib.rs:3-88) run only at compile time. The model keeps the expanded code for the getter expressions the repository declares: a copy of the literal, or a call of the callable on the context.
- `From`-directed dispatch in `set` and in the accessor setter (src/lib.rs:21, src/lib.rs:93) is resolved at compile time from the argument's type. Each gets one explicit method per case instead: `SetLit`/`SetFunc`, `SetName`/`SetNameFunc`, `SetCount`/`SetCountFunc`.
- `Box`, `'static`, `ref` bindings and trait-object dispatch are about ownership only. A Dafny function value stands in for the boxed callable.
- Callables are total, pure Dafny functions. A Rust `Fn` could panic, loop forever or use interior mutability.
- Instances.MyStruct.SetNameFunc: the closure gets a snapshot `View(val)` of the host's other fields, not the host itself. A Rust closure could also read the `name` field, which would call `get` again.
- Instances.IntHost: no struct in the repository uses the context-free accessor form. This class exists only to give that form's expansion a host.
- `String::clone` and the formatting machinery behind `format!` are not modelled. Strings are `seq<char>`, and `{}` of an `i64` is the canonical decimal rendering in `Decimal`.
- i64 is modelled as the range-checked `int64`. Nothing in the crate or its tests does arithmetic on it, so wrap-around does not arise.
