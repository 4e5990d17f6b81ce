/** The Singleton pattern of singleton/singleton.cpp: one lazily created object,
    reachable only through an accessor, that carries a public mutable counter.

    The module has two layers.
    - A value-level specification of the process-wide state: the hidden
      function-local static is either not yet constructed or holds an
      instance with some counter value. Every operation the program can
      perform is a `Call`, and `Run` replays a sequence of calls.
    - The objects themselves: class `Singleton` (the counter and
      `increase_value`) and class `InstanceHolder` (the static local of
      `get_instance`), whose methods are proved against `Step`; and the
      driver scenario of `main`, which returns the counter values it prints. */
module SingletonPattern {

  // ---------------------------------------------------------------------------
  // Specification of the process-wide state
  // ---------------------------------------------------------------------------

  /** The two states of the hidden static instance. */
  datatype State = Uninitialized | Initialized(counter: int)

  /** What a program can do with the singleton: call the accessor, call
      `increase_value` through a handle, or assign the public `counter`
      through a handle. */
  datatype Call = Get | Increase | Assign(value: int)

  /** A handle exists only once the accessor has run, so every call except
      `Get` needs an instance that already exists. */
  predicate Callable(st: State, c: Call)
  {
    c.Get? || st.Initialized?
  }

  /** A call sequence a program can issue from state `st`: its first call
      can be made, and every later one then can be too (see `Step`). */
  predicate Enabled(st: State, calls: seq<Call>)
  {
    calls == [] || Callable(st, calls[0])
  }

  /** The effect of one call on the process-wide state. The accessor
      constructs the instance, with a zero counter, only when none exists. */
  function Step(st: State, c: Call): (r: State)
    requires Callable(st, c)
    ensures r.Initialized?
    ensures c.Get? && st.Initialized? ==> r == st
  {
    match c
    case Get => if st.Uninitialized? then Initialized(0) else st
    case Increase => Initialized(st.counter + 1)
    case Assign(v) => Initialized(v)
  }

  /** The state reached after issuing `calls` in order from `st`. */
  function Run(st: State, calls: seq<Call>): State
    requires Enabled(st, calls)
    decreases |calls|
  {
    if calls == [] then st else Run(Step(st, calls[0]), calls[1..])
  }

  /** Whether a call constructs a `Singleton`: in the pattern's lazy reading
      of the static local, the first accessor call constructs it and no
      later call does. */
  predicate Constructs(st: State, c: Call)
  {
    st.Uninitialized? && c.Get?
  }

  /** The number of `Singleton` objects constructed while issuing `calls`. */
  function Allocations(st: State, calls: seq<Call>): nat
    requires Enabled(st, calls)
    decreases |calls|
  {
    if calls == [] then 0
    else (if Constructs(st, calls[0]) then 1 else 0) + Allocations(Step(st, calls[0]), calls[1..])
  }

  /** The calls of `calls` that go through a handle, i.e. all but the
      accessor calls. */
  function HandleCalls(calls: seq<Call>): (r: seq<Call>)
    ensures Get !in r
    ensures forall c :: c in r ==> c in calls
  {
    if calls == [] then []
    else if calls[0].Get? then HandleCalls(calls[1..])
    else [calls[0]] + HandleCalls(calls[1..])
  }

  /** The transition Uninitialized -> Initialized is irreversible, and after
      any sequence of calls the instance exists exactly when it existed
      before or the accessor was called. */
  lemma {:induction false} InitializedIff(st: State, calls: seq<Call>)
    requires Enabled(st, calls)
    ensures Run(st, calls).Initialized? <==> st.Initialized? || Get in calls
    decreases |calls|
  {
    if calls != [] {
      InitializedIff(Step(st, calls[0]), calls[1..]);
    }
  }

  /** No sequence of calls ever constructs a second `Singleton`: at most one
      is constructed, exactly one when the process starts without an
      instance and calls the accessor, and none once the instance exists. */
  lemma {:induction false} AllocatesAtMostOnce(st: State, calls: seq<Call>)
    requires Enabled(st, calls)
    ensures Allocations(st, calls) <= 1
    ensures Allocations(st, calls) == 1 <==> st.Uninitialized? && Get in calls
    decreases |calls|
  {
    if calls != [] {
      AllocatesAtMostOnce(Step(st, calls[0]), calls[1..]);
    }
  }

  /** Once the instance exists, accessor calls neither reset nor replace it:
      removing them from a call sequence does not change the final state,
      so every handle sees the values written through every other one. */
  lemma {:induction false} AccessorCallsAreInvisible(st: State, calls: seq<Call>)
    requires st.Initialized?
    ensures Run(st, calls) == Run(st, HandleCalls(calls))
    decreases |calls|
  {
    if calls != [] {
      var c, rest := calls[0], calls[1..];
      AccessorCallsAreInvisible(Step(st, c), rest);
      if !c.Get? {
        assert HandleCalls(calls) == [c] + HandleCalls(rest);
        assert ([c] + HandleCalls(rest))[1..] == HandleCalls(rest);
      }
    }
  }

  /** `n` successive `increase_value` calls starting from counter `v` leave
      the counter at `v + n`. */
  lemma {:induction false} IncreaseRepeated(st: State, n: nat)
    requires st.Initialized?
    ensures Run(st, seq(n, _ => Increase)) == Initialized(st.counter + n)
    decreases n
  {
    if n > 0 {
      var calls := seq(n, _ => Increase);
      assert calls[0] == Increase;
      assert calls[1..] == seq(n - 1, _ => Increase);
      IncreaseRepeated(Initialized(st.counter + 1), n - 1);
    }
  }

  // ---------------------------------------------------------------------------
  // The objects
  // ---------------------------------------------------------------------------

  /** The singleton object: a public counter that starts at 0. It is only
      ever allocated by `InstanceHolder.GetInstance`. */
  class Singleton {
    var counter: int

    /** The protected default constructor, with the counter's default
        member initializer. */
    constructor ()
      ensures counter == 0
    {
      counter := 0;
    }

    /** `increase_value`: adds one to the counter and changes nothing else. */
    method IncreaseValue()
      modifies this`counter
      ensures counter == old(counter) + 1
      ensures Initialized(counter) == Step(Initialized(old(counter)), Increase)
    {
      counter := counter + 1;
    }
  }

  /** The function-local `static Singleton instance` of `get_instance`,
      read as lazily initialized: `null` until the accessor first runs, then
      the one instance. */
  class InstanceHolder {
    var instance: Singleton?
    // Singletons the accessor has constructed so far; the body of GetInstance
    // keeps it, and no contract rules out allocations elsewhere
    ghost var allocations: nat

    ghost predicate Valid()
      reads this
    {
      allocations == if instance == null then 0 else 1
    }

    /** The process-wide state this holder represents. */
    ghost function Abstract(): State
      reads this, instance
    {
      if instance == null then Uninitialized else Initialized(instance.counter)
    }

    /** The pattern's initial state: no instance yet. */
    constructor ()
      ensures Valid() && instance == null && Abstract() == Uninitialized
    {
      instance := null;
      allocations := 0;
    }

    /** `get_instance`: constructs the instance on the first call and returns
        that same object on every call. */
    method GetInstance() returns (s: Singleton)
      requires Valid()
      modifies this
      ensures Valid() && instance == s
      ensures old(instance) == null ==> fresh(s)
      ensures old(instance) != null ==> s == old(instance)
      ensures Abstract() == Step(old(Abstract()), Get)
      ensures allocations == old(allocations) + Allocations(old(Abstract()), [Get])
    {
      if instance == null {
        instance := new Singleton();
        allocations := allocations + 1;
      }
      s := instance;
    }
  }

  // ---------------------------------------------------------------------------
  // The driver scenario of main
  // ---------------------------------------------------------------------------

  /** The scenario of `main`, returning the counter values it prints, in
      order: 0 after the first access, 1 after one increment, 1 again through
      a second handle, then 0, 1, ..., 9 from the loop and finally 10. */
  method MainScenario() returns (printed: seq<int>)
    ensures printed == [0, 1, 1] + seq(10, k => k) + [10]
  {
    var holder := new InstanceHolder();
    var singleton1 := holder.GetInstance();
    printed := [singleton1.counter];

    singleton1.IncreaseValue();
    printed := printed + [singleton1.counter];

    var singleton2 := holder.GetInstance();
    assert singleton2 == singleton1;
    printed := printed + [singleton2.counter];

    singleton1.counter := 0;
    assert singleton2.counter == 0;

    var i := 0;
    while i < 10
      invariant 0 <= i <= 10
      invariant singleton1.counter == i
      invariant printed == [0, 1, 1] + seq(i, k => k)
    {
      printed := printed + [singleton1.counter];
      i := i + 1;
      singleton1.IncreaseValue();
    }

    printed := printed + [singleton1.counter];
  }
}
