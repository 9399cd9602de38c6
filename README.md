# minijinja dynamic-object protocol in Dafny

This project models the `Object` trait of minijinja's value layer
(`minijinja/src/value/object.rs`). A host type that implements `Object` can be
placed inside a template `Value` without serialising it. The engine then asks
such an object for four things:

- an attribute by name (`get_attr`);
- the names of its attributes (`attributes`);
- the result of calling one of its methods (`call_method`);
- the result of calling the object itself (`call`).

Each operation has a default that the engine supplies. A host type overrides
only the operations it needs. The blanket `impl<T: Object> Object for Arc<T>`
forwards all four operations to the wrapped `T`. So an object may sit behind
any number of shared-ownership layers and still behave exactly as it does bare.

Files:

- `wrappers.dfy`: `Option` and `Result`.
- `errors.dfy`: `ErrorKind`, `Error` (a kind plus a message) and `Fallible<V>`,
  which stands for `Result<Value, Error>`.
- `object.dfy`: the protocol itself.
  - `Impl` is a host object: one instance of a host type, given as that
    type's overrides, one `Option` per operation. `None` means that the type
    keeps the engine's default. Each override has the instance's field values
    already captured, so two instances of one type with different fields are
    two different `Impl` values.
  - `Object` is either `Host(impl)` or `Arc(inner)`.
  - `GetAttr`, `Attributes`, `CallMethod` and `Call` dispatch an operation
    through every `Arc` layer.
  - The remaining members are lemmas about the defaults and about how
    transparent `Arc` is.

`Value` and `State` come from modules that are not part of this model. They
are the type parameters `V` and `S` here.

## Model

| member | source | states |
|---|---|---|
| `Objects.GetAttr` | minijinja/src/value/object.rs:31-42 | Attribute lookup takes only a name. It gets no state and has no error channel: absence is `None`. Through any number of `Arc` layers the answer is the innermost host object's override, or the default when it has none. |
| `Objects.Attributes` | minijinja/src/value/object.rs:44-52 | The enumeration of any object is the one its innermost host object gives, or the default when the host object does not override it. |
| `Objects.CallMethod` | minijinja/src/value/object.rs:54-68 | A method call on any object returns exactly what the innermost host object's `call_method` returns, success or error. |
| `Objects.Call` | minijinja/src/value/object.rs:70-84 | A direct call on any object returns exactly what the innermost host object's `call` returns, success or error. |
| `Objects.Nest` | minijinja/src/value/object.rs:87-103 | Adding `n` `Arc` layers keeps the same host object at the bottom and adds exactly `n` to the nesting depth. |
| `Objects.Decompose` | minijinja/src/value/object.rs:87-103 | Every object is its innermost host object wrapped in exactly `Depth(o)` `Arc` layers. |
| `Objects.DefaultGetAttrAbsent` | minijinja/src/value/object.rs:39-42 | If the host object keeps the default `get_attr`, every attribute name yields `None`, at any wrapping depth. |
| `Objects.DefaultAttributesEmpty` | minijinja/src/value/object.rs:50-52 | If the host object keeps the default `attributes`, the enumeration is empty. |
| `Objects.DefaultCallMethodFails` | minijinja/src/value/object.rs:61-68 | If the host object keeps the default `call_method`, every state, name and argument list gives `Err` with kind `InvalidOperation` and message `"object has no method named " + name`. |
| `Objects.DefaultCallFails` | minijinja/src/value/object.rs:77-84 | If the host object keeps the default `call`, every state and argument list gives `Err` with kind `InvalidOperation` and message `"tried to call non callable object"`. |
| `Objects.NoMethodMessageIdentifiesName` | minijinja/src/value/object.rs:64-67 | Two default `call_method` messages are equal exactly when the method names are equal, so the message identifies the method. |
| `Objects.NotCallableDiffersFromNoMethod` | minijinja/src/value/object.rs:61-84 | The message of the default `call` differs from every message of the default `call_method`. |
| `Objects.DefaultErrorsDistinct` | minijinja/src/value/object.rs:61-84 | On an object that keeps both defaults, an unknown method and a direct call both fail with `InvalidOperation`, and the two errors are different. |
| `Objects.ArcForwards` | minijinja/src/value/object.rs:87-103 | One `Arc` layer returns, for each of the four operations, exactly what the wrapped object returns for the same input. |
| `Objects.ArcTransparent` | minijinja/src/value/object.rs:87-103 | `n` `Arc` layers, for any `n >= 0`, return on each of the four operations exactly what the bare object returns for the same state, name and arguments (stated per input). |
| `Objects.SameHostEquivalent` | minijinja/src/value/object.rs:87-103 | Two objects built on the same host object (the same overrides over the same captured fields) agree on every operation and every input, however deeply each one is wrapped. In particular an object under `Nest(o, n)` agrees with `o` for all inputs at once. |

## Left out

- `examples/expr.rs`: the command-line example is not part of this model. It
  reads process arguments and environment variables, exits the process, and
  prints JSON. The expression compiler and evaluator that it calls are not part
  of this model either.
- The `Display`/`Debug` supertraits (`object.rs:22-25`): formatting goes through
  library traits, and no operation here depends on it.
- The `Any + Sync + Send` bounds and the advice to use a `Mutex` for interior
  mutability (`object.rs:18-20, 25`): these are about sharing across threads and
  runtime type identity. The model is sequential, and each override is a
  pure function.
- The reference counting and lifetime of `Arc`: only its forwarding behaviour
  is modelled.
- `Value`, `State`, `Error::new` and `from_args`: they are defined in modules
  that are not part of this model. `Value` and `State` are abstract type
  parameters, and `Error::new(kind, detail)` is the constructor
  `Error(kind, detail)`. `ErrorKind` lists only `InvalidOperation` (used here)
  and two stand-ins for the parser's and the evaluator's kinds. The full
  enumeration is in `crate::error`, which is not part of this model.
- The `attributes` iterator borrows from the object and is lazy. The model
  gives the enumeration as a finite `seq<string>` that the host object fixes.
- An override in Rust can read the object's own fields. The model stores each
  override as a pure function from the operation's inputs, with those field
  values already captured, so it cannot observe later interior mutation.
