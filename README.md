# Singleton pattern, modelled in Dafny

This project models `singleton/singleton.cpp`, a C++ demonstration of the
Singleton pattern. The class `Singleton` has a protected default constructor
and a public `int counter` that starts at 0. `increase_value` adds one to the
counter. The static accessor `get_instance` returns a reference to a
function-local `static Singleton instance`. The pattern describes this
static as created lazily, on the first call of the accessor; the model keeps
that lazy state (see "## Left out" for what C++ does here). `main` takes two handles from the accessor
and shows that they are one object. It then resets the counter through the
first handle and runs a loop that prints and then increments the counter ten
times.

Everything lives in module `SingletonPattern` (`singleton.dfy`), in two layers.

- **Specification.** `State` is the process-wide state: `Uninitialized` before
  the first accessor call, `Initialized(counter)` after it. `Call` is what a
  program can do: `Get` (the accessor), `Increase` (`increase_value` through a
  handle) and `Assign(v)` (writing the public field through a handle). `Step`
  gives the effect of one call and `Run` replays a sequence. `Allocations`
  counts the `Singleton` objects constructed along the way. A handle exists
  only after the accessor has run, so a sequence is `Enabled` only if its
  first call is `Get` or the instance already exists.
- **Objects.** Class `Singleton` has the `counter` field and `IncreaseValue`.
  Class `InstanceHolder` stands for the hidden static local: its field
  `instance: Singleton?` is `null` while uninitialized. `GetInstance`
  allocates only when that field is `null`, and its postcondition ties the
  holder's new state to `Step`. Handles are Dafny references, so aliasing
  between handles is object identity. `MainScenario` is the driver of `main`.
  It returns the sequence of counter values that `main` prints.

The counter is a plain `int` in the code: it is a public field that may be
assigned any value. The model therefore uses `int` and not a natural number.

## Model

| member | source | states |
|---|---|---|
| SingletonPattern.Step | singleton/singleton.cpp:22-31 | After any call the instance exists. An accessor call on an existing instance returns that state unchanged, so it neither resets nor replaces the instance. |
| SingletonPattern.InitializedIff | singleton/singleton.cpp:27-31 | After any enabled call sequence, the instance exists exactly when it existed before or the accessor was called. Initialization is never undone. |
| SingletonPattern.AllocatesAtMostOnce | singleton/singleton.cpp:14-29 | Any call sequence constructs at most one `Singleton`. It constructs exactly one when it starts uninitialized and calls the accessor, and none once the instance exists. |
| SingletonPattern.AccessorCallsAreInvisible | singleton/singleton.cpp:27-31 | Once the instance exists, deleting every accessor call from a sequence leaves the final state unchanged. A later accessor call therefore sees every value written through an earlier handle. |
| SingletonPattern.IncreaseRepeated | singleton/singleton.cpp:22-25 | `n` successive `increase_value` calls from counter `v` leave the counter at `v + n`. |
| SingletonPattern.Singleton.constructor | singleton/singleton.cpp:14-19 | A newly constructed instance has counter 0. |
| SingletonPattern.Singleton.IncreaseValue | singleton/singleton.cpp:22-25 | The counter grows by exactly one. Only this object's `counter` field may change, so the holder's reference is untouched. This agrees with `Step` for `Increase`. |
| SingletonPattern.InstanceHolder.constructor | singleton/singleton.cpp:29 | The holder starts with no instance, in state `Uninitialized`: the pattern's state before the accessor first runs. |
| SingletonPattern.InstanceHolder.GetInstance | singleton/singleton.cpp:27-31 | The first call returns a freshly allocated instance with counter 0. Every later call returns the stored object itself. The new state is `Step(old state, Get)`, and the allocation count grows by one only on the first call, so it never exceeds 1. The count is kept by the body beside the allocation; the contract does not rule out other allocations, and the evidence for at most one construction is `AllocatesAtMostOnce` together with `fresh(s)` and `s == old(instance)`. |
| SingletonPattern.MainScenario | singleton/singleton.cpp:56-96 | The printed counter values are exactly 0, 1, 1, then 0, 1, ..., 9 from the loop, then 10. The third value, 1, is read through the second handle after the increment through the first, so it shows the two handles share one counter. That the handles are the same object, and that the reset is seen through both, is asserted in the body, not stated in the contract. |

## Left out

- Console output: `main` writes text lines with `cout`. The model keeps only the sequence of counter values those lines print, as the result of `MainScenario`.
- Thread safety of the function-local static initialization: the model is sequential. Concurrent first calls, and the unsynchronized counter updates, are not modelled.
- The deleted copy and move constructors and assignment operators, and the protected constructor: these are compile-time restrictions of C++. This model does not hide the `Singleton` constructor. The model approximates them by allocating a `Singleton` only inside `InstanceHolder.GetInstance`, and Dafny references are never copied as objects.
- SingletonPattern.Singleton.IncreaseValue: does not model signed 32-bit overflow of `counter` (undefined behaviour in C++), because the counter is an unbounded `int` and the scenario never exceeds 10.
- The `Uninitialized` state and construction on the first `Get` model the pattern's lazy initialization. In this program the defaulted constructor with a constant member initializer is `constexpr`, so C++ constant-initializes the static before `get_instance` first runs; no code can observe the difference, since the first `get_instance` sees counter 0 either way.
- Destruction of the static instance at process exit is not modelled, because no code runs after it.
- Failure of the first construction: the instance has static storage and its defaulted constructor only sets `counter` to 0, so it cannot fail and there is nothing to model.
- SingletonPattern.InstanceHolder.GetInstance: the holder's `instance` field is writable by any Dafny client. `Valid()` does not rule out a client replacing the stored object, and the next `GetInstance` would then return the replacement. The C++ static local cannot be reached from outside `get_instance`, so the model relies on clients not writing that field.
