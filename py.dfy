/** Python values, exceptions and lists, as the instrumentation core sees them.
    Callables, classes, tracers and connections are opaque: only their identity
    (a name) and the arguments they were built from are kept. */
module Py {

  /** The exceptions the core raises or lets propagate to its caller. */
  datatype Exception =
    | ImportError(moduleName: string)
    | AttributeError(owner: string, name: string)
    | KeyError(key: string)
    | TypeError(reason: string)

  /** The outcome of a Python call: a value, or the exception it raised. */
  datatype Result<+T> = Ok(value: T) | Err(error: Exception) {
    predicate IsFailure() { Err? }
    function PropagateFailure<U>(): Result<U> requires Err? { Err(error) }
    function Extract(): T requires Ok? { value }
  }

  /** A Python value. */
  datatype Value =
    | None
    | Bool(b: bool)
    | Int(i: int)
    | Str(s: string)
    | List(items: seq<Value>)
    | Tuple(items: seq<Value>)
    | Dict(entries: map<string, Value>)
    /** an opaque object (a tracer, a connection, a class instance) */
    | Obj(name: string)
    /** a built-in callable such as object.__new__; it has no __get__ */
    | Builtin(name: string)
    /** a module-level Python function */
    | Func(name: string)
    /** an inner function that captured the `tracer` argument of an adapter's instrument */
    | Closure(name: string, tracer: Value)
    /** func.__get__(owner): the function bound to a class */
    | Bound(func: Value, owner: string)
    /** a wrapt FunctionWrapper: calls go to wrapper, and __wrapped__ is original */
    | Wrapped(original: Value, wrapper: Value)
    /** the object returned by calling the foreign class cls with args */
    | Instance(cls: string, args: seq<Value>)

  /** The positional and keyword arguments of a call. */
  datatype Arguments = Arguments(args: seq<Value>, kwargs: map<string, Value>)

  /** Python's bool(v). Objects and callables are truthy. */
  predicate Truthy(v: Value) {
    match v
    case None => false
    case Bool(b) => b
    case Int(i) => i != 0
    case Str(s) => s != ""
    case List(items) => items != []
    case Tuple(items) => items != []
    case Dict(entries) => entries != map[]
    case _ => true
  }

  /** Python's `a or b`. */
  function Or(a: Value, b: Value): Value {
    if Truthy(a) then a else b
  }

  /** Whether hasattr(v, '__get__'): plain functions, bound methods and wrapt wrappers are descriptors. */
  predicate HasGet(v: Value) {
    v.Func? || v.Closure? || v.Bound? || v.Wrapped?
  }

  /** Unhashable values: set() over them raises TypeError. Lists and dicts are unhashable, and so
      is a tuple that holds one, however deeply; opaque objects hash by identity. */
  predicate Unhashable(v: Value)
    decreases v
  {
    match v
    case List(_) => true
    case Dict(_) => true
    case Tuple(items) => exists i :: 0 <= i < |items| && Unhashable(items[i])
    case _ => false
  }

  /** The elements `for x in v` visits, in order. Lists, tuples and strings are iterable;
      every other value raises TypeError here (dict key order is not represented). */
  function Iterate(v: Value): Result<seq<Value>> {
    match v
    case List(items) => Ok(items)
    case Tuple(items) => Ok(items)
    case Str(s) => Ok(seq(|s|, i requires 0 <= i < |s| => Str([s[i]])))
    case _ => Err(TypeError("object is not iterable"))
  }

  /** ''.join(parts) for parts that are strings. */
  function Join(parts: seq<Value>): string
    requires forall i :: 0 <= i < |parts| ==> parts[i].Str?
  {
    if parts == [] then "" else parts[0].s + Join(parts[1..])
  }

  /** Iterating a string yields its characters as one-character strings. */
  lemma {:induction false} JoinCharacters(s: string)
    ensures var parts := seq(|s|, i requires 0 <= i < |s| => Str([s[i]]));
      (forall i :: 0 <= i < |parts| ==> parts[i].Str? && |parts[i].s| == 1) && Join(parts) == s
  {
    if s != [] {
      JoinCharacters(s[1..]);
      var parts := seq(|s|, i requires 0 <= i < |s| => Str([s[i]]));
      assert parts[1..] == seq(|s[1..]|, i requires 0 <= i < |s[1..]| => Str([s[1..][i]]));
      assert s == [s[0]] + s[1..];
    }
  }

  /** Exactly lists, tuples and strings are iterable, and iterating loses nothing: a list or
      tuple is rebuilt from its elements, and ''.join gives a string back from its
      one-character pieces. */
  lemma IterateRoundTrip(v: Value)
    ensures Iterate(v).Ok? <==> v.List? || v.Tuple? || v.Str?
    ensures Iterate(v).Err? ==> Iterate(v).error.TypeError?
    ensures v.List? ==> List(Iterate(v).value) == v
    ensures v.Tuple? ==> Tuple(Iterate(v).value) == v
    ensures v.Str? ==> (forall x :: x in Iterate(v).value ==> x.Str? && |x.s| == 1) && Join(Iterate(v).value) == v.s
  {
    if v.Str? {
      JoinCharacters(v.s);
    }
  }

  /** set(v): the elements of v, or TypeError when v is not iterable or holds an unhashable element. */
  function ToSet(v: Value): Result<set<Value>> {
    var items :- Iterate(v);
    if exists x :: x in items && Unhashable(x) then Err(TypeError("unhashable type"))
    else Ok(set x | x in items)
  }

  /** set() keeps membership and forgets order, repetition and the kind of sequence: two lists
      with the same elements give one set, which is also the set of the tuple; and a list
      holding a list or dict raises TypeError. */
  lemma ToSetForgetsOrder(xs: seq<Value>, ys: seq<Value>)
    requires forall x :: x in xs <==> x in ys
    ensures ToSet(List(xs)) == ToSet(List(ys)) == ToSet(Tuple(xs))
    ensures ToSet(List(xs)).Ok? <==> forall x :: x in xs ==> !Unhashable(x)
    ensures ToSet(List(xs)).Ok? ==> forall x :: x in ToSet(List(xs)).value <==> x in xs
    ensures ToSet(List(xs)).Err? ==> ToSet(List(xs)).error.TypeError?
  {
    assert (set x | x in xs) == (set x | x in ys);
  }

  /** A list nested inside a tuple still makes set() raise: `set([(1, [2])])` is a TypeError,
      while `set([(1, 2)])` succeeds. */
  lemma ToSetLooksInsideTuples()
    ensures ToSet(List([Tuple([Int(1), List([Int(2)])])])) == Err(TypeError("unhashable type"))
    ensures ToSet(List([Tuple([Int(1), Int(2)])])) == Ok({Tuple([Int(1), Int(2)])})
  {
    var nested := Tuple([Int(1), List([Int(2)])]);
    assert Unhashable(nested.items[1]);
    assert nested in [nested];
    var flat := Tuple([Int(1), Int(2)]);
    assert forall i :: 0 <= i < |flat.items| ==> flat.items[i].Int?;
    assert !Unhashable(flat);
    assert forall x :: x in [flat] ==> x == flat;
    assert (set x | x in [flat]) == {flat};
  }

  /** set(s) of a string is the set of its characters, each a one-character string. */
  lemma ToSetOfString(s: string)
    ensures ToSet(Str(s)).Ok?
    ensures forall x :: x in ToSet(Str(s)).value <==> x.Str? && |x.s| == 1 && x.s[0] in s
  {
    var items := Iterate(Str(s)).value;
    forall x
      ensures x in items <==> x.Str? && |x.s| == 1 && x.s[0] in s
    {
      if x.Str? && |x.s| == 1 && x.s[0] in s {
        var i :| 0 <= i < |s| && s[i] == x.s[0];
        assert items[i] == Str([s[i]]);
        assert x.s == [s[i]];
      }
    }
  }

  /** A Python list object that a caller owns and that may be changed in place. */
  class PyList {
    var items: seq<Value>

    constructor (items: seq<Value>)
      ensures this.items == items
    {
      this.items := items;
    }

    /** list.insert(index, x): an index past the end appends. */
    method Insert(index: nat, x: Value)
      modifies this
      ensures var k := if index < |old(items)| then index else |old(items)|;
              items == old(items)[..k] + [x] + old(items)[k..]
    {
      var k := if index < |items| then index else |items|;
      items := items[..k] + [x] + items[k..];
    }
  }
}
