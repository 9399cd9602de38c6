/**
  The dynamic-object protocol of the template engine.

  A host type exposes itself to the engine by implementing four operations:
  attribute lookup, attribute enumeration, method invocation and direct
  invocation. Each has a default supplied by the engine. One instance of such
  a type, a host object, is described here by an `Impl`: one optional override
  per operation, `None` meaning "the type keeps the default", each override
  having that instance's field values already captured. Two instances of one
  type with different fields are two different `Impl` values. An `Object` is
  a host object, possibly behind any number of shared-ownership (`Arc`)
  layers, each of which forwards every operation to what it wraps.

  The engine's `Value` and `State` are left abstract as the type parameters
  `V` and `S`.
 */
module Objects {
  import opened Wrappers
  import opened Errors

  /** What one host object of type `T` answers itself; `None` keeps the engine's default. */
  datatype Impl<!V, !S> = Impl(
    getAttr: Option<string -> Option<V>>,
    attributes: Option<seq<string>>,
    callMethod: Option<(S, string, seq<V>) -> Fallible<V>>,
    call: Option<(S, seq<V>) -> Fallible<V>>)

  /** A dynamic object: a host object, or an `Arc<T>` around another object. */
  datatype Object<!V, !S> =
    | Host(impl: Impl<V, S>)
    | Arc(inner: Object<V, S>)

  // ---------------------------------------------------------------------------
  // The engine's defaults

  /** Prefix of the error message of the default `call_method`. */
  const NoMethodPrefix: string := "object has no method named "

  /** Error message of the default `call`. */
  const NotCallableMessage: string := "tried to call non callable object"

  /** The message `format!("object has no method named {}", name)`. */
  function NoMethodMessage(name: string): string {
    NoMethodPrefix + name
  }

  /** Default `get_attr`: the object has no attributes. */
  function DefaultGetAttr<V>(name: string): Option<V> {
    None
  }

  /** Default `attributes`: an empty enumeration. */
  function DefaultAttributes(): seq<string> {
    []
  }

  /** Default `call_method`: every method name is unknown. */
  function DefaultCallMethod<V, S>(state: S, name: string, args: seq<V>): Fallible<V> {
    Err(Error(InvalidOperation, NoMethodMessage(name)))
  }

  /** Default `call`: the object is not callable. */
  function DefaultCall<V, S>(state: S, args: seq<V>): Fallible<V> {
    Err(Error(InvalidOperation, NotCallableMessage))
  }

  // ---------------------------------------------------------------------------
  // Dispatch on one host object: its override where it has one, else the default

  function ImplGetAttr<V, S>(impl: Impl<V, S>, name: string): Option<V> {
    match impl.getAttr
    case Some(f) => f(name)
    case None => DefaultGetAttr(name)
  }

  function ImplAttributes<V, S>(impl: Impl<V, S>): seq<string> {
    match impl.attributes
    case Some(names) => names
    case None => DefaultAttributes()
  }

  function ImplCallMethod<V, S>(impl: Impl<V, S>, state: S, name: string, args: seq<V>): Fallible<V> {
    match impl.callMethod
    case Some(f) => f(state, name, args)
    case None => DefaultCallMethod(state, name, args)
  }

  function ImplCall<V, S>(impl: Impl<V, S>, state: S, args: seq<V>): Fallible<V> {
    match impl.call
    case Some(f) => f(state, args)
    case None => DefaultCall(state, args)
  }

  // ---------------------------------------------------------------------------
  // The shape of an object: a host object under some number of `Arc` layers

  /** The host object at the bottom of all `Arc` layers. */
  function Innermost<V, S>(o: Object<V, S>): Impl<V, S> {
    match o
    case Host(impl) => impl
    case Arc(inner) => Innermost(inner)
  }

  /** The number of `Arc` layers around the host object. */
  function Depth<V, S>(o: Object<V, S>): nat {
    match o
    case Host(_) => 0
    case Arc(inner) => 1 + Depth(inner)
  }

  /** `o` wrapped in `n` further `Arc` layers. */
  function Nest<V, S>(o: Object<V, S>, n: nat): (r: Object<V, S>)
    ensures Innermost(r) == Innermost(o)
    ensures Depth(r) == Depth(o) + n
  {
    if n == 0 then o else Arc(Nest(o, n - 1))
  }

  /** Every object is its host object wrapped in exactly `Depth(o)` layers. */
  lemma {:induction false} Decompose<V, S>(o: Object<V, S>)
    ensures o == Nest(Host(Innermost(o)), Depth(o))
  {
    match o
    case Host(_) =>
    case Arc(inner) => Decompose(inner);
  }

  // ---------------------------------------------------------------------------
  // The four operations as the engine invokes them

  /**
    `get_attr(&self, name) -> Option<Value>`. It receives no state and has no
    error channel: absence is `None`. Through any number of `Arc` layers the
    answer is the host object's own.
   */
  function GetAttr<V, S>(o: Object<V, S>, name: string): (r: Option<V>)
    ensures r == ImplGetAttr(Innermost(o), name)
  {
    match o
    case Host(impl) => ImplGetAttr(impl, name)
    case Arc(inner) => GetAttr(inner, name)
  }

  /** `attributes(&self)`: the enumeration of the host object at the bottom. */
  function Attributes<V, S>(o: Object<V, S>): (r: seq<string>)
    ensures r == ImplAttributes(Innermost(o))
  {
    match o
    case Host(impl) => ImplAttributes(impl)
    case Arc(inner) => Attributes(inner)
  }

  /** `call_method(&self, state, name, args)`: success or error of the host object. */
  function CallMethod<V, S>(o: Object<V, S>, state: S, name: string, args: seq<V>): (r: Fallible<V>)
    ensures r == ImplCallMethod(Innermost(o), state, name, args)
  {
    match o
    case Host(impl) => ImplCallMethod(impl, state, name, args)
    case Arc(inner) => CallMethod(inner, state, name, args)
  }

  /** `call(&self, state, args)`: success or error of the host object. */
  function Call<V, S>(o: Object<V, S>, state: S, args: seq<V>): (r: Fallible<V>)
    ensures r == ImplCall(Innermost(o), state, args)
  {
    match o
    case Host(impl) => ImplCall(impl, state, args)
    case Arc(inner) => Call(inner, state, args)
  }

  // ---------------------------------------------------------------------------
  // What the defaults do

  /** An object whose host object keeps the default has no attribute of any name. */
  lemma DefaultGetAttrAbsent<V, S>(o: Object<V, S>, name: string)
    requires Innermost(o).getAttr.None?
    ensures GetAttr(o, name) == None
  {
  }

  /** An object whose host object keeps the default enumerates no attributes. */
  lemma DefaultAttributesEmpty<V, S>(o: Object<V, S>)
    requires Innermost(o).attributes.None?
    ensures Attributes(o) == []
  {
  }

  /**
    An object whose host object keeps the default `call_method` fails for every
    state, name and argument list, with kind `InvalidOperation` and a message
    naming the method.
   */
  lemma DefaultCallMethodFails<V, S>(o: Object<V, S>, state: S, name: string, args: seq<V>)
    requires Innermost(o).callMethod.None?
    ensures CallMethod(o, state, name, args)
         == Err(Error(InvalidOperation, "object has no method named " + name))
  {
  }

  /**
    An object whose host object keeps the default `call` fails for every state
    and argument list, with kind `InvalidOperation`.
   */
  lemma DefaultCallFails<V, S>(o: Object<V, S>, state: S, args: seq<V>)
    requires Innermost(o).call.None?
    ensures Call(o, state, args)
         == Err(Error(InvalidOperation, "tried to call non callable object"))
  {
  }

  /** The default `call_method` message identifies the method: distinct names give distinct messages. */
  lemma NoMethodMessageIdentifiesName(a: string, b: string)
    ensures NoMethodMessage(a) == NoMethodMessage(b) <==> a == b
  {
    if NoMethodMessage(a) == NoMethodMessage(b) {
      assert a == NoMethodMessage(a)[|NoMethodPrefix|..];
      assert b == NoMethodMessage(b)[|NoMethodPrefix|..];
    }
  }

  /** The default `call` message is never a default `call_method` message. */
  lemma NotCallableDiffersFromNoMethod(name: string)
    ensures NotCallableMessage != NoMethodMessage(name)
  {
    assert NoMethodMessage(name)[0] == 'o';
  }

  /**
    On an object that keeps both defaults, calling an unknown method and
    calling the object itself fail with errors that tell the two apart,
    although both have kind `InvalidOperation`.
   */
  lemma DefaultErrorsDistinct<V, S>(o: Object<V, S>, state: S, name: string, args: seq<V>, callArgs: seq<V>)
    requires Innermost(o).callMethod.None? && Innermost(o).call.None?
    ensures CallMethod(o, state, name, args).Err? && Call(o, state, callArgs).Err?
    ensures CallMethod(o, state, name, args).error.kind == Call(o, state, callArgs).error.kind == InvalidOperation
    ensures CallMethod(o, state, name, args) != Call(o, state, callArgs)
  {
    NotCallableDiffersFromNoMethod(name);
  }

  // ---------------------------------------------------------------------------
  // Transparency of `Arc`

  /** One `Arc` layer passes each of the four operations through unchanged. */
  lemma ArcForwards<V, S>(o: Object<V, S>, state: S, name: string, args: seq<V>)
    ensures GetAttr(Arc(o), name) == GetAttr(o, name)
    ensures Attributes(Arc(o)) == Attributes(o)
    ensures CallMethod(Arc(o), state, name, args) == CallMethod(o, state, name, args)
    ensures Call(Arc(o), state, args) == Call(o, state, args)
  {
  }

  /**
    Any number `n` of `Arc` layers pass each of the four operations through
    unchanged, for each single input. The induction over the layers is done
    once, in the contracts of `Nest` and of the four dispatch functions.
   */
  lemma ArcTransparent<V, S>(o: Object<V, S>, n: nat, state: S, name: string, args: seq<V>)
    ensures GetAttr(Nest(o, n), name) == GetAttr(o, name)
    ensures Attributes(Nest(o, n)) == Attributes(o)
    ensures CallMethod(Nest(o, n), state, name, args) == CallMethod(o, state, name, args)
    ensures Call(Nest(o, n), state, args) == Call(o, state, args)
  {
  }

  /** Two objects agree on every operation and every input. */
  ghost predicate Equivalent<V(!new), S(!new)>(a: Object<V, S>, b: Object<V, S>) {
    && (forall name :: GetAttr(a, name) == GetAttr(b, name))
    && Attributes(a) == Attributes(b)
    && (forall state, name, args :: CallMethod(a, state, name, args) == CallMethod(b, state, name, args))
    && (forall state, args :: Call(a, state, args) == Call(b, state, args))
  }

  /**
    Objects over the same host object (the same overrides over the same
    captured fields) are indistinguishable, however deeply each is wrapped.
   */
  lemma SameHostEquivalent<V(!new), S(!new)>(a: Object<V, S>, b: Object<V, S>)
    requires Innermost(a) == Innermost(b)
    ensures Equivalent(a, b)
  {
  }
}
