/** `ReactiveInteger`: a `ReactiveValue<Integer>` with atomic arithmetic.
    Java `int` arithmetic wraps around at 32 bits, which `Wrap32` spells
    out.  The subclass is modelled as methods over a `ReactiveValue<Int32>`
    cell. */
module ReactiveInteger {
  import opened Common
  import opened ReactiveValue

  const MODULUS: int := 0x1_0000_0000

  /** `currentValue + i` in `int` arithmetic */
  function Plus(c: Int32, i: Int32): (r: Int32)
    ensures INT_MIN <= c as int + i as int <= INT_MAX ==> r as int == c as int + i as int
    ensures (r as int - (c as int + i as int)) % MODULUS == 0
  {
    Wrap32(c as int + i as int)
  }

  /** `currentValue * i` in `int` arithmetic */
  function Times(c: Int32, i: Int32): (r: Int32)
    ensures INT_MIN <= c as int * i as int <= INT_MAX ==> r as int == c as int * i as int
    ensures (r as int - c as int * i as int) % MODULUS == 0
  {
    Wrap32(c as int * i as int)
  }

  /** What one successful turn of the retry loop of `addAndGet` or
      `multiplyAndGet` does, with `apply` the arithmetic: `get()` throws on
      the sentinel and unboxing a `null` throws; otherwise the compare-and-set
      of the value read stores and fires the new value, and the value read is
      returned. */
  function UpdateSpec(s: Cascade<Int32>, next: Int32 -> Int32): (r: (Cascade<Int32>, Result<Int32>))
    ensures s.value.NotAvailable? ==> r == (s, Err(IllegalState))
    ensures s.value.Null? ==> r == (s, Err(NullPointer))
    ensures s.value.Value? ==> && r.1 == Ok(s.value.v)
                               && r.0.value == Value(next(s.value.v))
                               && r.0.fired == s.fired + [Value(next(s.value.v))]
  {
    match s.value
    case NotAvailable => (s, Err(IllegalState))
    case Null => (s, Err(NullPointer))
    case Value(c) => (CompareAndSetSpec(s, Value(c), Value(next(c))).0, Ok(c))
  }

  /** `addAndGet(i)`: despite its name it returns the value before the
      addition. */
  function AddAndGetSpec(s: Cascade<Int32>, i: Int32): (r: (Cascade<Int32>, Result<Int32>))
  {
    UpdateSpec(s, c => Plus(c, i))
  }

  /** `multiplyAndGet(i)`: returns the value before the multiplication. */
  function MultiplyAndGetSpec(s: Cascade<Int32>, i: Int32): (r: (Cascade<Int32>, Result<Int32>))
  {
    UpdateSpec(s, c => Times(c, i))
  }

  // -------------------------------------------------------------- lemmas

  /** Two 32-bit values that agree modulo 2^32 are equal. */
  lemma Int32Congruent(a: Int32, b: Int32)
    requires (a as int - b as int) % MODULUS == 0
    ensures a == b
  {
    var d := a as int - b as int;
    assert d == MODULUS * (d / MODULUS);
  }

  /** Wrap-around only depends on the residue modulo 2^32. */
  lemma WrapRespectsCongruence(x: int, y: int)
    requires (x - y) % MODULUS == 0
    ensures Wrap32(x) == Wrap32(y)
  {
    var a, b := Wrap32(x) as int, Wrap32(y) as int;
    assert a - x == MODULUS * ((a - x) / MODULUS);
    assert b - y == MODULUS * ((b - y) / MODULUS);
    assert x - y == MODULUS * ((x - y) / MODULUS);
    var k := (a - x) / MODULUS - (b - y) / MODULUS + (x - y) / MODULUS;
    assert a - b == MODULUS * k;
    Int32Congruent(Wrap32(x), Wrap32(y));
  }

  /** Two `addAndGet` calls leave the wrapped sum, in either order, and
      fire both intermediate values. */
  lemma AddTwiceAddsTheSum(s: Cascade<Int32>, i: Int32, j: Int32)
    requires s.value.Value?
    ensures var c := s.value.v;
            var once := AddAndGetSpec(s, i);
            var twice := AddAndGetSpec(once.0, j);
            && twice.0.value == Value(Wrap32(c as int + i as int + j as int))
            && twice.0.value == AddAndGetSpec(AddAndGetSpec(s, j).0, i).0.value
            && twice.1 == Ok(Plus(c, i))
            && twice.0.fired == s.fired + [Value(Plus(c, i)), twice.0.value]
  {
    var c := s.value.v;
    PlusAssociates(c, i, j);
    PlusAssociates(c, j, i);
  }

  /** Adding i and then j wraps to the same value as adding their sum. */
  lemma PlusAssociates(c: Int32, i: Int32, j: Int32)
    ensures Plus(Plus(c, i), j) == Wrap32(c as int + i as int + j as int)
  {
    WrapRespectsCongruence(Plus(c, i) as int + j as int, c as int + i as int + j as int);
  }

  /** `incrementAndGet()` followed by `decrementAndGet()` restores the value
      (also across the wrap-around at `Integer.MAX_VALUE`), firing the
      incremented value and then the original one. */
  lemma IncrementThenDecrementRestores(s: Cascade<Int32>)
    requires s.value.Value?
    ensures var up := IncrementAndGetSpec(s);
            var down := DecrementAndGetSpec(up.0);
            && down.0.value == s.value
            && down.0.fired == s.fired + [Value(Plus(s.value.v, 1)), s.value]
            && up.1 == Ok(s.value.v) && down.1 == Ok(Plus(s.value.v, 1))
  {
    var c := s.value.v;
    var u := Plus(c, 1);
    var up := IncrementAndGetSpec(s);
    assert up.0 == Cascade(Value(u), s.fired + [Value(u)]) && up.1 == Ok(c);
    PlusOneMinusOne(c);
    var down := DecrementAndGetSpec(up.0);
    assert down.0.value == Value(Plus(u, -1)) && down.1 == Ok(u);
    assert down.0.fired == up.0.fired + [Value(Plus(u, -1))];
  }

  /** Adding 1 and then -1 wraps back to the start. */
  lemma PlusOneMinusOne(c: Int32)
    ensures Plus(Plus(c, 1), -1) == c
  {
    WrapRespectsCongruence(Plus(c, 1) as int + -1, c as int);
  }

  /** Incrementing `Integer.MAX_VALUE` wraps to `Integer.MIN_VALUE`. */
  lemma IncrementWrapsAtMax(s: Cascade<Int32>)
    requires s.value == Value(INT_MAX as Int32)
    ensures IncrementAndGetSpec(s).0.value == Value(INT_MIN as Int32)
  {
  }

  /** Unlike `set`, an update that computes the value already stored still
      fires it (the compare-and-set succeeds and the update is not `null`). */
  lemma NeutralUpdateStillFires(s: Cascade<Int32>)
    requires s.value.Value?
    ensures AddAndGetSpec(s, 0).0 == Cascade(s.value, s.fired + [s.value])
    ensures MultiplyAndGetSpec(s, 1).0 == Cascade(s.value, s.fired + [s.value])
    ensures SetSpec(s, s.value.v).0 == s
  {
  }

  /** `incrementAndGet()` */
  function IncrementAndGetSpec(s: Cascade<Int32>): (r: (Cascade<Int32>, Result<Int32>))
  {
    AddAndGetSpec(s, 1)
  }

  /** `decrementAndGet()` */
  function DecrementAndGetSpec(s: Cascade<Int32>): (r: (Cascade<Int32>, Result<Int32>))
  {
    AddAndGetSpec(s, -1)
  }

  // ------------------------------------------- the retry loop as written

  /** A boxed `Integer` as a Java object: its value and its identity.
      Identity 0 is the box that `Integer.valueOf` shares for a value of the
      small-integer cache; every other box has an identity of its own. */
  datatype Box = Box(v: Int32, identity: nat)

  /** The values `Integer.valueOf` hands out shared boxes for. */
  predicate InCache(c: Int32) {
    -128 <= c as int <= 127
  }

  /** `Integer.valueOf(c)`, the boxing of an `int` argument; `newIdentity` is the
      identity a new allocation receives. */
  function ValueOf(c: Int32, newIdentity: nat): (b: Box)
    requires 0 < newIdentity
    ensures b.v == c
    ensures b.identity == 0 <==> InCache(c)
  {
    if InCache(c) then Box(c, 0) else Box(c, newIdentity)
  }

  /** A box allocated before the allocation counter reached `heap`; only a
      cached value can have the shared identity. */
  predicate Allocated(b: Box, heap: nat) {
    b.identity < heap && (b.identity == 0 ==> InCache(b.v))
  }

  /** At most `fuel` turns of the loop of `addAndGet` and `multiplyAndGet`
      as written, with no other thread writing and `stored` the box the cell
      holds: `get()` unboxes it, both `int` arguments of `compareAndSet` are
      boxed again, and `AtomicReference.compareAndSet` compares identities.
      The box stored and the value read, or None when no turn succeeded. */
  function UpdateAsWritten(stored: Box, heap: nat, next: Int32 -> Int32, fuel: nat): (r: Option<(Box, Int32)>)
    requires 0 < heap
    decreases fuel
  {
    if fuel == 0 then None
    else
      var c := stored.v;
      var expected := ValueOf(c, heap);
      var update := ValueOf(next(c), heap + 1);
      if expected == stored then Some((update, c))
      else UpdateAsWritten(stored, heap + 2, next, fuel - 1)
  }

  /** A turn succeeds only when the stored box is the shared one, and then
      the first turn does: a stored value outside the cache makes every
      compare-and-set fail, however many turns are taken. */
  lemma {:induction false} UpdateAsWrittenNeedsSharedBox(stored: Box, heap: nat, next: Int32 -> Int32, fuel: nat)
    requires 0 < heap && Allocated(stored, heap)
    ensures UpdateAsWritten(stored, heap, next, fuel).Some? <==> 0 < fuel && stored.identity == 0
    ensures 0 < fuel && stored.identity == 0 ==>
              UpdateAsWritten(stored, heap, next, fuel) == Some((ValueOf(next(stored.v), heap + 1), stored.v))
    decreases fuel
  {
    if 0 < fuel && stored.identity != 0 {
      UpdateAsWrittenNeedsSharedBox(stored, heap + 2, next, fuel - 1);
    }
  }

  /** `addAndGet(i)` on a cell holding a value outside the cache never
      returns, whereas the value-comparing model returns the old value after
      one turn. */
  lemma AddAndGetLoopsOutsideCache(s: Cascade<Int32>, stored: Box, heap: nat, i: Int32, fuel: nat)
    requires 0 < heap && Allocated(stored, heap) && !InCache(stored.v) && s.value == Value(stored.v)
    ensures UpdateAsWritten(stored, heap, c => Plus(c, i), fuel).None?
    ensures AddAndGetSpec(s, i).1 == Ok(stored.v)
  {
    UpdateAsWrittenNeedsSharedBox(stored, heap, c => Plus(c, i), fuel);
  }

  // -------------------------------------------------------------- methods

  /** The retry loop shared by `addAndGet` and `multiplyAndGet`: read with
      `get()`, then compare-and-set the value read against its update.  With
      no other thread writing the cell the first compare-and-set succeeds. */
  method Update(rv: ReactiveValue<Int32>, next: Int32 -> Int32) returns (r: Result<Int32>)
    modifies rv
    ensures rv.State() == UpdateSpec(old(rv.State()), next).0 && r == UpdateSpec(old(rv.State()), next).1
  {
    var done := false;
    r := Err(IllegalState);
    while !done
      invariant !done ==> rv.State() == old(rv.State())
      invariant done ==> rv.State() == UpdateSpec(old(rv.State()), next).0 && r == UpdateSpec(old(rv.State()), next).1
      decreases if done then 0 else 1
    {
      var current := rv.Get();
      if current.Err? {
        return Err(current.error);
      }
      if current.value.Null? {
        return Err(NullPointer);
      }
      var c := current.value.v;
      var swapped := rv.CompareAndSet(Value(c), Value(next(c)));
      match swapped
      case Err(e) =>
        return Err(e);
      case Ok(b) =>
        done := b;
        if done {
          r := Ok(c);
        }
    }
  }

  /** `addAndGet(i)` */
  method AddAndGet(rv: ReactiveValue<Int32>, i: Int32) returns (r: Result<Int32>)
    modifies rv
    ensures rv.State() == AddAndGetSpec(old(rv.State()), i).0 && r == AddAndGetSpec(old(rv.State()), i).1
  {
    r := Update(rv, c => Plus(c, i));
  }

  /** `multiplyAndGet(i)` */
  method MultiplyAndGet(rv: ReactiveValue<Int32>, i: Int32) returns (r: Result<Int32>)
    modifies rv
    ensures rv.State() == MultiplyAndGetSpec(old(rv.State()), i).0 && r == MultiplyAndGetSpec(old(rv.State()), i).1
  {
    r := Update(rv, c => Times(c, i));
  }

  /** `incrementAndGet()` */
  method IncrementAndGet(rv: ReactiveValue<Int32>) returns (r: Result<Int32>)
    modifies rv
    ensures rv.State() == IncrementAndGetSpec(old(rv.State())).0 && r == IncrementAndGetSpec(old(rv.State())).1
  {
    r := AddAndGet(rv, 1);
  }

  /** `decrementAndGet()` */
  method DecrementAndGet(rv: ReactiveValue<Int32>) returns (r: Result<Int32>)
    modifies rv
    ensures rv.State() == DecrementAndGetSpec(old(rv.State())).0 && r == DecrementAndGetSpec(old(rv.State())).1
  {
    r := AddAndGet(rv, -1);
  }
}
