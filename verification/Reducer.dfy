/**
 * The reducer runtime: metered transactions behind a circuit breaker.
 */
module Reducer {
  import opened Base
  import opened Vm

  const DEFAULT_FUEL: nat := 100_000
  const ERROR_THRESHOLD: nat := 3

  // ------------------------------------------------------------ what a breaker has been through

  datatype Outcome = Succeeded | Erred | Enabled

  type History = seq<Outcome>

  /** Errors since the last success or re-enabling. */
  function Errors(h: History): nat {
    if h == [] || h[|h| - 1] != Erred then 0 else Errors(h[..|h| - 1]) + 1
  }

  /** Three errors in a row, at some time since the last re-enabling. */
  ghost predicate Tripped(h: History) {
    exists i :: TripAt(h, i)
  }

  ghost predicate TripAt(h: History, i: nat) {
    && i + ERROR_THRESHOLD <= |h|
    && (forall k :: i <= k < i + ERROR_THRESHOLD ==> h[k] == Erred)
    && (forall k :: i <= k < |h| ==> h[k] != Enabled)
  }

  lemma {:induction false} ErrorsAre(h: History, k: nat)
    ensures Errors(h) <= |h|
    ensures |h| - Errors(h) <= k < |h| ==> h[k] == Erred
    ensures Errors(h) < |h| ==> h[|h| - Errors(h) - 1] != Erred
    decreases |h|
  {
    if h != [] && h[|h| - 1] == Erred {
      ErrorsAre(h[..|h| - 1], k);
    }
  }

  lemma {:induction false} ErrorsReach(h: History, n: nat)
    requires n <= |h| && forall k :: |h| - n <= k < |h| ==> h[k] == Erred
    ensures Errors(h) >= n
    decreases n
  {
    if n > 0 {
      ErrorsReach(h[..|h| - 1], n - 1);
    }
  }

  lemma ManyErrorsTrip(h: History)
    requires Errors(h) >= ERROR_THRESHOLD
    ensures Tripped(h)
  {
    forall k | 0 <= k < |h| ensures |h| - Errors(h) <= k ==> h[k] == Erred {
      ErrorsAre(h, k);
    }
    ErrorsAre(h, 0);
    assert TripAt(h, |h| - ERROR_THRESHOLD);
  }

  /** What one more outcome does to a breaker's state. */
  lemma TrippedAfter(h: History, o: Outcome)
    ensures Errors(h + [o]) == if o == Erred then Errors(h) + 1 else 0
    ensures Tripped(h + [o]) <==> o != Enabled && (Tripped(h) || Errors(h + [o]) >= ERROR_THRESHOLD)
  {
    var h' := h + [o];
    assert h'[..|h|] == h;
    if o != Enabled && Tripped(h) {
      var i :| TripAt(h, i);
      assert TripAt(h', i);
    }
    if Errors(h') >= ERROR_THRESHOLD {
      ManyErrorsTrip(h');
    }
    if i: nat :| TripAt(h', i) {
      assert h'[|h|] == o;
      if i + ERROR_THRESHOLD <= |h| {
        assert TripAt(h, i);
      } else {
        LastErrors(h', i);
      }
    }
  }

  lemma LastErrors(h: History, i: nat)
    requires TripAt(h, i) && i + ERROR_THRESHOLD == |h|
    ensures Errors(h) >= ERROR_THRESHOLD
  {
    ErrorsReach(h, ERROR_THRESHOLD);
  }

  /** Nothing runs while the breaker is open: the case of one caller at a time. */
  ghost predicate OneAtATime(h: History) {
    forall i :: 0 <= i < |h| && Tripped(h[..i]) ==> h[i] == Enabled
  }

  /** Then the breaker is open exactly while the last three outcomes are errors. */
  lemma {:induction false} OneAtATimeTrips(h: History)
    requires OneAtATime(h)
    ensures Tripped(h) <==> Errors(h) == ERROR_THRESHOLD
    ensures Errors(h) <= ERROR_THRESHOLD
    decreases |h|
  {
    if h != [] {
      var p := h[..|h| - 1];
      assert h == p + [h[|h| - 1]];
      forall i | 0 <= i < |p| && Tripped(p[..i]) ensures p[i] == Enabled {
        assert p[..i] == h[..i];
      }
      OneAtATimeTrips(p);
      TrippedAfter(p, h[|h| - 1]);
      hide Tripped, Errors;
      assert Tripped(p) ==> h[|h| - 1] == Enabled;
    } else {
      assert forall i: nat :: !TripAt([], i);
    }
  }

  /** In so many words: open means that the last three things that happened are errors. */
  lemma OpenAfterThree(h: History)
    requires OneAtATime(h)
    ensures Tripped(h) <==> |h| >= 3 && forall k :: |h| - 3 <= k < |h| ==> h[k] == Erred
  {
    OneAtATimeTrips(h);
    hide OneAtATime, Tripped, Errors;
    forall k | 0 <= k < |h| ensures |h| - Errors(h) <= k ==> h[k] == Erred {
      ErrorsAre(h, k);
    }
    ErrorsAre(h, 0);
    if |h| >= 3 && forall k :: |h| - 3 <= k < |h| ==> h[k] == Erred {
      ErrorsReach(h, 3);
    }
  }

  lemma OneAtATimeGrows(h: History, o: Outcome)
    requires OneAtATime(h) && (Tripped(h) ==> o == Enabled)
    ensures OneAtATime(h + [o])
  {
    var h' := h + [o];
    forall i | 0 <= i < |h'| && Tripped(h'[..i]) ensures h'[i] == Enabled {
      assert i < |h| ==> h'[..i] == h[..i];
      assert i == |h| ==> h'[..i] == h;
    }
  }

  // ------------------------------------------------------------ the runtime

  /** The error counter is a 32-bit atomic. */
  datatype Breaker = Breaker(errors: nat, quarantined: bool)

  datatype Invoked = Done(fuelUsed: int, output: Option<int>) | Aborted(error: VmError) | Quarantined

  class Runtime {
    var store: Store
    var breakers: map<string, Breaker>
    /** Outcomes recorded per name, in the order the breaker table saw them. */
    ghost var history: map<string, History>

    ghost function Past(name: string): History
      reads this
    {
      if name in history then history[name] else []
    }

    ghost predicate Valid()
      reads this
    {
      && history.Keys == breakers.Keys
      && forall name :: name in breakers ==>
           && breakers[name].quarantined == Tripped(history[name])
           && breakers[name].errors == Errors(history[name]) % TWO_32
    }

    constructor (store: Store)
      ensures Valid() && this.store == store && history == map[]
    {
      this.store, breakers, history := store, map[], map[];
    }

    /** The breaker check, which also enters a name on its first use. */
    method Admit(name: string) returns (admitted: bool)
      requires Valid()
      modifies this`breakers, this`history
      ensures Valid() && name in breakers
      ensures admitted == !Tripped(old(Past(name)))
      ensures forall n :: Past(n) == old(Past(n))
    {
      FreshIsClosed();
      if name !in breakers {
        breakers := breakers[name := Breaker(0, false)];
        history := history[name := []];
      }
      return !breakers[name].quarantined;
    }

    method RecordSuccess(name: string)
      requires Valid()
      modifies this`breakers, this`history
      ensures Valid() && breakers.Keys == old(breakers).Keys
      ensures forall n :: Past(n) == old(Past(n)) + if n == name && name in breakers then [Succeeded] else []
    {
      hide Tripped, Errors;
      if name in breakers {
        TrippedAfter(history[name], Succeeded);
        breakers := breakers[name := breakers[name].(errors := 0)];
        history := history[name := history[name] + [Succeeded]];
      }
    }

    method RecordError(name: string)
      requires Valid()
      modifies this`breakers, this`history
      ensures Valid() && breakers.Keys == old(breakers).Keys
      ensures forall n :: Past(n) == old(Past(n)) + if n == name && name in breakers then [Erred] else []
    {
      hide Tripped, Errors;
      if name in breakers {
        ghost var h := history[name];
        TrippedAfter(h, Erred);
        if Errors(h) >= ERROR_THRESHOLD {
          ManyErrorsTrip(h);
        }
        var b := breakers[name];
        var n := (b.errors + 1) % TWO_32;
        b := b.(errors := n);
        if n >= ERROR_THRESHOLD {
          b := b.(quarantined := true);
        }
        WrappedCount(Errors(h));
        breakers := breakers[name := b];
        history := history[name := h + [Erred]];
      }
    }

    method Reenable(name: string)
      requires Valid()
      modifies this`breakers, this`history
      ensures Valid() && breakers.Keys == old(breakers).Keys
      ensures forall n :: Past(n) == old(Past(n)) + if n == name && name in breakers then [Enabled] else []
    {
      hide Tripped, Errors;
      if name in breakers {
        TrippedAfter(history[name], Enabled);
        breakers := breakers[name := Breaker(0, false)];
        history := history[name := history[name] + [Enabled]];
      }
    }

    method IsQuarantined(name: string) returns (q: bool)
      requires Valid()
      ensures q == Tripped(Past(name))
    {
      FreshIsClosed();
      return name in breakers && breakers[name].quarantined;
    }

    /** One metered run over a snapshot, in a transaction of its own. */
    static method Attempt(snapshot: Store, prog: Program) returns (result: Result<Option<int>, VmError>, db: Store,
                          used: nat)
      ensures var e := Run(prog, Machine(0, [], snapshot), DEFAULT_FUEL);
        result == e.result && db == e.m.db && used == DEFAULT_FUEL - e.left
    {
      hide Run;
      var txn := new Txn(snapshot);
      var vm := new Vm(DEFAULT_FUEL);
      result := vm.RunProgram(prog, txn);
      db, used := txn.db, vm.FuelUsed();
    }

    /**
     * Run a reducer in a transaction of its own; `conflict` says whether committing fails.
     * Only a reducer that ends by itself and commits changes the store.
     */
    method Invoke(name: string, prog: Program, conflict: bool) returns (r: Invoked)
      requires Valid()
      modifies this
      ensures Valid()
      ensures var e := Run(prog, Machine(0, [], old(store)), DEFAULT_FUEL);
        if Tripped(old(Past(name))) then
          r == Quarantined && store == old(store) && Past(name) == old(Past(name))
        else if e.result.Ok? && !conflict then
          r == Done(DEFAULT_FUEL - e.left,
            e.result.value) && store == e.m.db && Past(name) == old(Past(name)) + [Succeeded]
        else
          r.Aborted? && store == old(store) && Past(name) == old(Past(name)) + [Erred]
      ensures forall n :: n != name ==> Past(n) == old(Past(n))
      ensures r.Done? ==> 0 <= r.fuelUsed <= 100_000
      ensures OneAtATime(old(Past(name))) ==> OneAtATime(Past(name))
    {
      hide Run, Tripped, OneAtATime;
      ghost var h := Past(name);
      var admitted := Admit(name);
      if !admitted {
        return Quarantined;
      }
      var result, db, used := Attempt(store, prog);
      if result.Ok? {
        if !conflict {
          store := db;
          RecordSuccess(name);
          r := Done(used, result.value);
        } else {
          RecordError(name);
          r := Aborted(Trapped("commit conflict"));
        }
      } else {
        RecordError(name);
        r := Aborted(result.error);
      }
      if OneAtATime(h) {
        OneAtATimeGrows(h, if result.Ok? && !conflict then Succeeded else Erred);
      }
    }
  }

  lemma FreshIsClosed()
    ensures !Tripped([]) && Errors([]) == 0
  {
    assert forall i: nat :: !TripAt([], i);
  }

  /** Losing count after 2^32 errors in a row does not matter: the breaker is open by then. */
  lemma WrappedCount(n: nat)
    ensures (n % TWO_32 + 1) % TWO_32 == (n + 1) % TWO_32
    ensures n < ERROR_THRESHOLD ==> (n + 1) % TWO_32 == n + 1
    ensures (n % TWO_32 + 1) % TWO_32 >= ERROR_THRESHOLD ==> n + 1 >= ERROR_THRESHOLD
  {
  }

  // ------------------------------------------------------------ the counter reducer

  function CounterReducer(key: Key, amount: int): Program {
    [LoadInt(key), PushInt(amount), Add, Dup, StoreInt(key), Return]
  }

  /** It costs 26 units of fuel, returns the new value and stores it, and touches nothing else. */
  lemma CounterCounts(key: Key, amount: int, db: Store, fuel: nat)
    requires fuel >= 26
    ensures var v := Wrap(Loaded(db, key) + amount);
      Run(CounterReducer(key, amount), Machine(0, [], db), fuel)
        == Ending(Ok(Some(v)), Machine(5, [], db[key := Int(v)]), fuel - 26)
  {
    var prog, v0 := CounterReducer(key, amount), Loaded(db, key);
    var v := Wrap(v0 + amount);
    CounterSteps(key, amount, db);
    CounterCosts(key, amount);
    hide Wrap, Loaded, Run, Exec, Cost, CounterReducer;
    RunGoes(prog, Machine(0, [], db), Machine(1, [v0], db), fuel, 11);
    RunGoes(prog, Machine(1, [v0], db), Machine(2, [v0, amount], db), fuel - 11, 1);
    RunGoes(prog, Machine(2, [v0, amount], db), Machine(3, [v], db), fuel - 12, 1);
    RunGoes(prog, Machine(3, [v], db), Machine(4, [v, v], db), fuel - 13, 1);
    RunGoes(prog, Machine(4, [v, v], db), Machine(5, [v], db[key := Int(v)]), fuel - 14, 11);
    RunStops(prog, Machine(5, [v], db[key := Int(v)]), Some(v), Machine(5, [], db[key := Int(v)]), fuel - 25, 1);
  }

  /** One instruction of a run. */
  lemma RunGoes(prog: Program, m: Machine, m': Machine, fuel: nat, cost: nat)
    requires Exec(prog, m) == Go(m') && Cost(prog, m.pc) == cost <= fuel && fuel > 0
    ensures Run(prog, m, fuel) == Run(prog, m', fuel - cost)
  {
    hide Exec, Cost;
  }

  lemma RunStops(prog: Program, m: Machine, output: Option<int>, m': Machine, fuel: nat, cost: nat)
    requires Exec(prog, m) == Stop(output, m') && Cost(prog, m.pc) == cost <= fuel && fuel > 0
    ensures Run(prog, m, fuel) == Ending(Ok(output), m', fuel - cost)
  {
    hide Exec, Cost;
  }

  lemma CounterSteps(key: Key, amount: int, db: Store)
    ensures var prog, v0 := CounterReducer(key, amount), Loaded(db, key);
      var v := Wrap(v0 + amount);
      && Exec(prog, Machine(0, [], db)) == Go(Machine(1, [v0], db))
      && Exec(prog, Machine(1, [v0], db)) == Go(Machine(2, [v0, amount], db))
      && Exec(prog, Machine(2, [v0, amount], db)) == Go(Machine(3, [v], db))
      && Exec(prog, Machine(3, [v], db)) == Go(Machine(4, [v, v], db))
      && Exec(prog, Machine(4, [v, v], db)) == Go(Machine(5, [v], db[key := Int(v)]))
      && Exec(prog, Machine(5, [v], db[key := Int(v)])) == Stop(Some(v), Machine(5, [], db[key := Int(v)]))
  {
    hide Exec, CounterReducer;
    CounterLoads(key, amount, db);
    CounterAdds(key, amount, db, Loaded(db, key));
    CounterStores(key, amount, db, Wrap(Loaded(db, key) + amount));
    CounterReturns(key, amount, db[key := Int(Wrap(Loaded(db, key) + amount))], Wrap(Loaded(db, key) + amount));
  }

  lemma CounterLoads(key: Key, amount: int, db: Store)
    ensures var prog, v0 := CounterReducer(key, amount), Loaded(db, key);
      && Exec(prog, Machine(0, [], db)) == Go(Machine(1, [v0], db))
      && Exec(prog, Machine(1, [v0], db)) == Go(Machine(2, [v0, amount], db))
  {
    hide Wrap, Loaded;
  }

  lemma CounterAdds(key: Key, amount: int, db: Store, v0: int)
    ensures Exec(CounterReducer(key, amount), Machine(2, [v0, amount], db)) == Go(Machine(3, [Wrap(v0 + amount)], db))
  {
    hide Wrap, Loaded;
  }

  lemma CounterStores(key: Key, amount: int, db: Store, v: int)
    ensures var prog := CounterReducer(key, amount);
      && Exec(prog, Machine(3, [v], db)) == Go(Machine(4, [v, v], db))
      && Exec(prog, Machine(4, [v, v], db)) == Go(Machine(5, [v], db[key := Int(v)]))
  {
    hide Wrap, Loaded;
  }

  lemma CounterReturns(key: Key, amount: int, db: Store, v: int)
    ensures Exec(CounterReducer(key, amount), Machine(5, [v], db)) == Stop(Some(v), Machine(5, [], db))
  {
    hide Wrap, Loaded;
  }

  lemma CounterCosts(key: Key, amount: int)
    ensures var prog := CounterReducer(key, amount);
      && Cost(prog, 0) == 11 && Cost(prog, 1) == 1 && Cost(prog, 2) == 1
      && Cost(prog, 3) == 1 && Cost(prog, 4) == 11 && Cost(prog, 5) == 1
  {
  }

  /** The store after `n` invocations of the same counter reducer, each given enough fuel. */
  function Counted(key: Key, amount: int, db: Store, n: nat): Store {
    if n == 0 then db
    else Run(CounterReducer(key, amount), Machine(0, [], Counted(key, amount, db, n - 1)), DEFAULT_FUEL).m.db
  }

  /** Counting `n` times adds `n` times the amount, modulo 2^64, and leaves all other keys alone. */
  lemma {:induction false} CounterAddsUp(key: Key, amount: int, db: Store, n: nat)
    requires n > 0
    ensures Counted(key, amount, db, n) == db[key := Int(Wrap(Loaded(db, key) + n * amount))]
  {
    hide Wrap, Run;
    var last := Counted(key, amount, db, n - 1);
    CounterCounts(key, amount, last, DEFAULT_FUEL);
    if n > 1 {
      CounterAddsUp(key, amount, db, n - 1);
      var v := Loaded(db, key);
      WrapAdds(v + (n - 1) * amount, amount);
      assert v + (n - 1) * amount + amount == v + n * amount;
    }
  }

  lemma WrapAdds(a: int, b: int)
    ensures Wrap(Wrap(a) + b) == Wrap(a + b)
  {
  }
}
