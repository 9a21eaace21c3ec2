/** `ReactiveValue<T>`: one atomic value cell (`mValueAR`) and the values it
    hands to its subscribers (`fire`).  Delivery itself belongs to
    `Subscription`, which is not part of this model: `fire(v)` is recorded
    in a log. */
module ReactiveValue {
  import opened Common

  /** The content of `mValueAR`: the `VALUE_NOT_AVAILABLE` sentinel, Java
      `null`, or a value. */
  datatype Cell<T> = NotAvailable | Null | Value(v: T)

  /** The cell and the log of everything fired so far. */
  datatype Cascade<T> = Cascade(value: Cell<T>, fired: seq<Cell<T>>)

  /** What a constructor leaves: the sentinel, fired once. */
  function Initial<T>(): (s: Cascade<T>)
    ensures s.value == NotAvailable && s.fired == [NotAvailable]
  {
    Cascade(NotAvailable, [NotAvailable])
  }

  /** `get()`: the stored value, which may be `null`, or
      `IllegalStateException` while the cell is not yet asserted. */
  function GetSpec<T>(s: Cascade<T>): (r: Result<Cell<T>>)
    ensures r.Err? <==> s.value.NotAvailable?
    ensures r.Err? ==> r.error == IllegalState
    ensures r.Ok? ==> r.value == s.value
  {
    if s.value.NotAvailable? then Err(IllegalState) else Ok(s.value)
  }

  /** `fire()`: the current value is delivered again and stays stored. */
  function FireSpec<T>(s: Cascade<T>): (r: Cascade<T>)
    ensures r.value == s.value && r.fired == s.fired + [s.value]
  {
    s.(fired := s.fired + [s.value])
  }

  /** `set(value)`: the value is always stored, and fired (once) exactly
      when it differs from the previous value.  A previous `null` fails the
      not-null assertion after the store and before any comparison, so
      nothing is fired then. */
  function SetSpec<T(==)>(s: Cascade<T>, v: T): (r: (Cascade<T>, Option<Exc>))
    ensures r.0.value == Value(v)
    ensures r.1.Some? <==> s.value.Null?
    ensures r.1.Some? ==> r.1.value == AssertionFailed
    ensures r.0.fired == s.fired + [Value(v)] <==> !s.value.Null? && s.value != Value(v)
    ensures r.0.fired == s.fired <==> s.value.Null? || s.value == Value(v)
  {
    var previous := s.value;
    if previous.Null? then (Cascade(Value(v), s.fired), Some(AssertionFailed))
    else if Value(v) != previous then (Cascade(Value(v), s.fired + [Value(v)]), None)
    else (Cascade(Value(v), s.fired), None)
  }

  /** `compareAndSet(expected, update)`: succeeds exactly when the stored
      value is the expected one; the update is then stored and fired unless
      it is `null`.  On failure nothing changes, and the log message reads the
      value with `get()`, which throws while the cell is unasserted. */
  function CompareAndSetSpec<T(==)>(s: Cascade<T>, expected: Cell<T>, update: Cell<T>): (r: (Cascade<T>, Result<bool>))
    ensures r.1 == Ok(true) <==> s.value == expected
    ensures r.1 == Ok(true) ==> r.0.value == update && r.0.fired == s.fired + (if update.Null? then [] else [update])
    ensures r.1 != Ok(true) ==> r.0 == s
    ensures r.1.Err? <==> s.value != expected && s.value.NotAvailable?
    ensures r.1.Err? ==> r.1.error == IllegalState
  {
    if s.value == expected then
      (Cascade(update, if update.Null? then s.fired else s.fired + [update]), Ok(true))
    else if s.value.NotAvailable? then (s, Err(IllegalState))
    else (s, Ok(false))
  }

  /** `getAndSet(value)`: stores the value and returns what `safeGet()`
      returned before (possibly the sentinel); a previous `null` throws after
      the store.  Nothing is fired. */
  function GetAndSetSpec<T>(s: Cascade<T>, v: T): (r: (Cascade<T>, Result<Cell<T>>))
    ensures r.0.value == Value(v) && r.0.fired == s.fired
    ensures r.1.Ok? <==> !s.value.Null?
    ensures r.1.Ok? ==> r.1.value == s.value
    ensures r.1.Err? ==> r.1.error == IllegalState
  {
    (s.(value := Value(v)), if s.value.Null? then Err(IllegalState) else Ok(s.value))
  }

  // -------------------------------------------------------------- lemmas

  /** Setting the same value twice fires at most once: the second call only
      stores. */
  lemma SetTwiceFiresOnce<T>(s: Cascade<T>, v: T)
    requires !s.value.Null?
    ensures var s1 := SetSpec(s, v).0;
            var s2 := SetSpec(s1, v);
            && s2.0 == s1 && s2.1.None?
            && |s1.fired| <= |s.fired| + 1
  {
  }

  /** The first `set` after construction fires the value. */
  lemma FirstSetFires<T>(v: T)
    ensures SetSpec(Initial<T>(), v) == (Cascade(Value(v), [NotAvailable, Value(v)]), None)
  {
    assert [NotAvailable] + [Value(v)] == [NotAvailable, Value(v)];
  }

  /** A `compareAndSet` that expects the value just stored succeeds and
      does what `set` does when the value changes. */
  lemma CompareAndSetWithCurrentIsSet<T>(s: Cascade<T>, v: T)
    requires !s.value.Null? && s.value != Value(v)
    ensures CompareAndSetSpec(s, s.value, Value(v)) == (SetSpec(s, v).0, Ok(true))
  {
  }

  /** After `getAndSet(v)`, `get()` returns v. */
  lemma GetAfterGetAndSet<T>(s: Cascade<T>, v: T)
    ensures GetSpec(GetAndSetSpec(s, v).0) == Ok(Value(v))
  {
  }

  /** The state `ReactiveValue(name, initialValue)` is evidently meant to
      leave: constructed, then the initial value set, so that it is stored
      and fired. */
  function InitialWith<T>(v: T): (s: Cascade<T>)
    ensures s == SetSpec(Initial<T>(), v).0
  {
    Cascade(Value(v), [NotAvailable, Value(v)])
  }

  /** As written, the two-argument constructor leaves the cell unasserted
      whatever initial value it is given, so `get()` throws; the intended
      state returns the initial value. */
  lemma InitialValueIsDropped<T>(v: T)
    ensures GetSpec(Initial<T>()) == Err(IllegalState)
    ensures GetSpec(InitialWith(v)) == Ok(Value(v))
  {
  }

  // -------------------------------------------------------------- the class

  class ReactiveValue<T(==)> {
    /** The name given to the constructor */
    const name: string
    /** `mValueAR` */
    var value: Cell<T>
    /** Every value handed to `fire`, in order */
    var fired: seq<Cell<T>>

    function State(): Cascade<T>
      reads this
    {
      Cascade(value, fired)
    }

    /** `ReactiveValue(name)` and `ReactiveValue(name, threadType,
        inputMapping, onError)`: the cell starts as the sentinel, which is
        fired once. */
    constructor (name: string)
      ensures State() == Initial<T>() && this.name == name
    {
      this.name := name;
      value := NotAvailable;
      fired := [NotAvailable];
    }

    /** `ReactiveValue(name, initialValue)`: the initial value is dropped. */
    constructor WithInitialValue(name: string, initialValue: Cell<T>)
      ensures State() == Initial<T>() && this.name == name
    {
      this.name := name;
      value := NotAvailable;
      fired := [NotAvailable];
    }

    /** The two-argument constructor as its documentation intends: the
        initial value is stored and fired. */
    constructor WithInitialValueSet(name: string, initialValue: T)
      ensures State() == InitialWith(initialValue) && this.name == name
    {
      this.name := name;
      value := Value(initialValue);
      fired := [NotAvailable, Value(initialValue)];
    }

    /** `fire()` */
    method Fire()
      modifies this
      ensures State() == FireSpec(old(State()))
    {
      fired := fired + [value];
    }

    /** `get()` */
    function Get(): (r: Result<Cell<T>>)
      reads this
      ensures r == GetSpec(State())
    {
      if value.NotAvailable? then Err(IllegalState) else Ok(value)
    }

    /** `safeGet()`: never throws. */
    function SafeGet(): (r: Cell<T>)
      reads this
      ensures GetSpec(State()).Ok? ==> r == GetSpec(State()).value
      ensures GetSpec(State()).Err? <==> r == NotAvailable
    {
      value
    }

    /** `set(value)` */
    method Set(v: T) returns (thrown: Option<Exc>)
      modifies this
      ensures State() == SetSpec(old(State()), v).0 && thrown == SetSpec(old(State()), v).1
    {
      var previous := value;
      value := Value(v);
      if previous.Null? {
        return Some(AssertionFailed);
      }
      var changed := !(Value(v) == previous);
      if changed {
        fired := fired + [Value(v)];
      }
      thrown := None;
    }

    /** `compareAndSet(expected, update)` */
    method CompareAndSet(expected: Cell<T>, update: Cell<T>) returns (r: Result<bool>)
      modifies this
      ensures State() == CompareAndSetSpec(old(State()), expected, update).0
      ensures r == CompareAndSetSpec(old(State()), expected, update).1
    {
      var success := value == expected;
      if success {
        value := update;
        if !update.Null? {
          fired := fired + [update];
        }
      } else if Get().Err? {
        return Err(Get().error);
      }
      r := Ok(success);
    }

    /** `getAndSet(value)` */
    method GetAndSet(v: T) returns (r: Result<Cell<T>>)
      modifies this
      ensures State() == GetAndSetSpec(old(State()), v).0 && r == GetAndSetSpec(old(State()), v).1
    {
      var t := value;
      value := Value(v);
      if t.Null? {
        return Err(IllegalState);
      }
      r := Ok(t);
    }
  }
}
