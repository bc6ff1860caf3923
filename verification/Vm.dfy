/**
 * The fuel-metered stack machine that reducers run on.
 */
module Vm {
  import opened Base

  const TWO_63 := 0x8000_0000_0000_0000

  /** Two's-complement wrap-around to 64 bits. */
  function Wrap(i: int): int { (i + TWO_63) % TWO_64 - TWO_63 }

  type Key = bytes

  /** A stored value: an integer, or something a reducer reads as 0. */
  datatype Cell = Int(i: int) | Other

  type Store = map<Key, Cell>

  datatype Instr =
    | PushInt(v: int)
    | Pop
    | Dup
    | Add
    | Sub
    | Mul
    | LoadInt(key: Key)
    | StoreInt(key: Key)
    | Jump(target: nat)
    | JumpIfZero(target: nat)
    | Return
    | Trap(message: string)

  type Program = seq<Instr>

  datatype VmError = OutOfFuel | StackUnderflow | BadJump(pc: nat) | Trapped(message: string)

  // ------------------------------------------------------------ one instruction, unmetered

  /** Where the machine is; `db` is the transaction's view of the store. */
  datatype Machine = Machine(pc: nat, stack: seq<int>, db: Store)

  /** The stack's top is its last element. */
  datatype Next = Go(m: Machine) | Stop(output: Option<int>, m: Machine) | Fail(error: VmError, m: Machine)

  function Loaded(db: Store, key: Key): int {
    if key in db && db[key].Int? then db[key].i else 0
  }

  function Arith(i: Instr, a: int, b: int): int {
    match i case Add => Wrap(a + b) case Sub => Wrap(a - b) case _ => Wrap(a * b)
  }

  function Exec(prog: Program, m: Machine): Next {
    var n := |m.stack|;
    if m.pc >= |prog| then Fail(BadJump(m.pc), m)
    else match prog[m.pc]
      case PushInt(v) => Go(Machine(m.pc + 1, m.stack + [v], m.db))
      case Pop =>
        if n == 0 then Fail(StackUnderflow, m) else Go(Machine(m.pc + 1, m.stack[..n - 1], m.db))
      case Dup =>
        if n == 0 then Fail(StackUnderflow, m) else Go(Machine(m.pc + 1, m.stack + [m.stack[n - 1]], m.db))
      case LoadInt(key) => Go(Machine(m.pc + 1, m.stack + [Loaded(m.db, key)], m.db))
      case StoreInt(key) =>
        if n == 0 then Fail(StackUnderflow, m)
        else Go(Machine(m.pc + 1, m.stack[..n - 1], m.db[key := Int(m.stack[n - 1])]))
      case Jump(t) => Go(Machine(t, m.stack, m.db))
      case JumpIfZero(t) =>
        if n == 0 then Fail(StackUnderflow, m)
        else Go(Machine(if m.stack[n - 1] == 0 then t else m.pc + 1, m.stack[..n - 1], m.db))
      case Return =>
        if n == 0 then Stop(None, m) else Stop(Some(m.stack[n - 1]), Machine(m.pc, m.stack[..n - 1], m.db))
      case Trap(message) => Fail(Trapped(message), m)
      case op =>
        if n == 0 then Fail(StackUnderflow, m)
        else if n == 1 then Fail(StackUnderflow, Machine(m.pc, [], m.db))
        else Go(Machine(m.pc + 1, m.stack[..n - 2] + [Arith(op, m.stack[n - 2], m.stack[n - 1])], m.db))
  }

  /** Storage accesses cost ten more. */
  function Cost(prog: Program, pc: nat): nat {
    if pc < |prog| && (prog[pc].LoadInt? || prog[pc].StoreInt?) then 11 else 1
  }

  // ------------------------------------------------------------ metered runs

  datatype Ending = Ending(result: Result<Option<int>, VmError>, m: Machine, left: nat)

  /** Run until the program ends or the fuel does not cover the next charge. */
  function Run(prog: Program, m: Machine, fuel: nat): (e: Ending)
    ensures e.left <= fuel
    decreases fuel
  {
    if fuel == 0 then Ending(Err(OutOfFuel), m, 0)
    else if fuel < Cost(prog, m.pc) then Ending(Err(OutOfFuel), m, fuel - 1)
    else
      var rest := fuel - Cost(prog, m.pc);
      match Exec(prog, m)
      case Go(m') => Run(prog, m', rest)
      case Stop(output, m') => Ending(Ok(output), m', rest)
      case Fail(error, m') => Ending(Err(error), m', rest)
  }

  /** The transaction a run reads and writes through. */
  class Txn {
    var db: Store

    constructor (snapshot: Store)
      ensures db == snapshot
    {
      db := snapshot;
    }

    method Get(key: Key) returns (r: Option<Cell>)
      ensures r == if key in db then Some(db[key]) else None
    {
      r := if key in db then Some(db[key]) else None;
    }

    method Put(key: Key, v: Cell)
      modifies this
      ensures db == old(db)[key := v]
    {
      db := db[key := v];
    }
  }

  class Vm {
    var stack: seq<int>
    var fuel: nat
    const budget: nat

    constructor (budget: nat)
      ensures stack == [] && fuel == budget && this.budget == budget
    {
      this.stack, this.fuel, this.budget := [], budget, budget;
    }

    function FuelUsed(): int
      reads this
    {
      budget - fuel
    }

    method Burn(cost: nat) returns (ok: bool)
      modifies this`fuel
      ensures ok == (cost <= old(fuel)) && fuel == old(fuel) - if ok then cost else 0
    {
      if fuel < cost {
        return false;
      }
      fuel := fuel - cost;
      return true;
    }

    method PopTop() returns (r: Option<int>)
      modifies this`stack
      ensures old(stack) == [] ==> r == None && stack == []
      ensures old(stack) != [] ==> r == Some(old(stack)[|old(stack)| - 1]) && stack == old(stack)[..|old(stack)| - 1]
    {
      if stack == [] {
        return None;
      }
      r := Some(stack[|stack| - 1]);
      stack := stack[..|stack| - 1];
    }

    /** Pop two numbers, push the result. */
    method Combine(op: Instr) returns (ok: bool)
      modifies this`stack
      ensures var s := old(stack); var n := |s|;
        && ok == (n >= 2)
        && stack == if ok then s[..n - 2] + [Arith(op, s[n - 2], s[n - 1])] else []
    {
      hide Arith;
      ghost var s := stack;
      var b := PopTop();
      if b.None? {
        return false;
      }
      var a := PopTop();
      if a.None? {
        return false;
      }
      assert stack == s[..|s| - 2];
      stack := stack + [Arith(op, a.value, b.value)];
      return true;
    }

    /** One turn of the interpreter: charge, fetch, execute. */
    method Turn(prog: Program, pc: nat, txn: Txn) returns (t: Turned)
      requires txn as object != this as object
      modifies this`stack, this`fuel, txn
      ensures t == TurnOf(prog, Machine(pc, old(stack), old(txn.db)), old(fuel)).0
      ensures (Machine(pc, stack, txn.db), fuel) == TurnOf(prog, Machine(pc, old(stack), old(txn.db)), old(fuel)).1
    {
      hide Arith;
      var next: nat;
      var ok := Burn(1);
      if !ok {
        return Ended(Err(OutOfFuel));
      }
      if pc >= |prog| {
        return Ended(Err(BadJump(pc)));
      }
      match prog[pc] {
        case PushInt(v) =>
          stack := stack + [v];
          next := pc + 1;
        case Pop =>
          var v := PopTop();
          if v.None? {
            return Ended(Err(StackUnderflow));
          }
          next := pc + 1;
        case Dup =>
          if stack == [] {
            return Ended(Err(StackUnderflow));
          }
          stack := stack + [stack[|stack| - 1]];
          next := pc + 1;
        case LoadInt(key) =>
          ok := Burn(10);
          if !ok {
            return Ended(Err(OutOfFuel));
          }
          var v := txn.Get(key);
          stack := stack + [match v case Some(Int(i)) => i case _ => 0];
          next := pc + 1;
        case StoreInt(key) =>
          ok := Burn(10);
          if !ok {
            return Ended(Err(OutOfFuel));
          }
          var v := PopTop();
          if v.None? {
            return Ended(Err(StackUnderflow));
          }
          txn.Put(key, Int(v.value));
          next := pc + 1;
        case Jump(t) =>
          next := t;
        case JumpIfZero(t) =>
          var v := PopTop();
          if v.None? {
            return Ended(Err(StackUnderflow));
          }
          next := if v.value == 0 then t else pc + 1;
        case Return =>
          var v := PopTop();
          return Ended(Ok(v));
        case Trap(message) =>
          return Ended(Err(Trapped(message)));
        case op =>
          ok := Combine(op);
          if !ok {
            return Ended(Err(StackUnderflow));
          }
          next := pc + 1;
      }
      return On(next);
    }

    /** The interpreter. It always ends: every turn burns fuel. */
    method RunProgram(prog: Program, txn: Txn) returns (r: Result<Option<int>, VmError>)
      requires txn as object != this as object
      modifies this`stack, this`fuel, txn
      ensures var e := Run(prog, Machine(0, old(stack), old(txn.db)), old(fuel));
        r == e.result && stack == e.m.stack && txn.db == e.m.db && fuel == e.left
    {
      hide TurnOf, Run;
      ghost var whole := Run(prog, Machine(0, stack, txn.db), fuel);
      var pc: nat := 0;
      while true
        invariant Run(prog, Machine(pc, stack, txn.db), fuel) == whole
        decreases fuel
      {
        TurnRuns(prog, Machine(pc, stack, txn.db), fuel);
        var t := Turn(prog, pc, txn);
        match t {
          case On(next) => pc := next;
          case Ended(result) => return result;
        }
      }
    }
  }

  datatype Turned = On(pc: nat) | Ended(result: Result<Option<int>, VmError>)

  /** A turn as a function; the machine keeps the program counter it started the turn with. */
  function TurnOf(prog: Program, m: Machine, fuel: nat): (Turned, (Machine, nat)) {
    if fuel < Cost(prog, m.pc) then (Ended(Err(OutOfFuel)), (m, if fuel == 0 then 0 else fuel - 1))
    else
      var rest := fuel - Cost(prog, m.pc);
      match Exec(prog, m)
      case Go(m') => (On(m'.pc), (m'.(pc := m.pc), rest))
      case Stop(output, m') => (Ended(Ok(output)), (m'.(pc := m.pc), rest))
      case Fail(error, m') => (Ended(Err(error)), (m'.(pc := m.pc), rest))
  }

  lemma TurnRuns(prog: Program, m: Machine, fuel: nat)
    ensures var (t, (m', left)) := TurnOf(prog, m, fuel);
      var e := Run(prog, m, fuel);
      match t
      case On(pc) => left < fuel && e == Run(prog, m'.(pc := pc), left)
      case Ended(result) => e.result == result && e.m.stack == m'.stack && e.m.db == m'.db && e.left == left
  {
    hide Exec;
  }

  // ------------------------------------------------------------ fuel is transparent

  function Used(prog: Program, m: Machine, fuel: nat): nat { fuel - Run(prog, m, fuel).left }

  /**
   * A run that ends by itself, using `u` fuel, ends the same way under every budget of at
   * least `u`: same outcome, same stack, same writes, same fuel used. Under any smaller
   * budget it runs out.
   */
  lemma {:induction false} FuelTransparency(prog: Program, m: Machine, fuel: nat, other: nat)
    requires Run(prog, m, fuel).result != Err(OutOfFuel)
    ensures var u := Used(prog, m, fuel); var e, e' := Run(prog, m, fuel), Run(prog, m, other);
      if other >= u then e' == Ending(e.result, e.m, other - u) else e'.result == Err(OutOfFuel)
    decreases fuel
  {
    hide Exec, Cost;
    ChargesAreSmall(prog, m.pc);
    FailsAreNotFuel(prog, m);
    var c := Cost(prog, m.pc);
    match Exec(prog, m)
    case Go(m') =>
      if other >= c {
        FuelTransparency(prog, m', fuel - c, other - c);
      }
    case _ =>
  }

  lemma ChargesAreSmall(prog: Program, pc: nat)
    ensures 1 <= Cost(prog, pc) <= 11
  {
  }

  lemma FailsAreNotFuel(prog: Program, m: Machine)
    ensures Exec(prog, m).Fail? ==> Exec(prog, m).error != OutOfFuel
  {
  }

  /** A run stopped for lack of fuel has less than one charge left, and did not end under any smaller budget either. */
  lemma {:induction false} OutOfFuelIsFinal(prog: Program, m: Machine, fuel: nat, less: nat)
    requires Run(prog, m, fuel).result == Err(OutOfFuel) && less <= fuel
    ensures Run(prog, m, fuel).left < 11
    ensures Run(prog, m, less).result == Err(OutOfFuel)
  {
    if Run(prog, m, less).result != Err(OutOfFuel) {
      FuelTransparency(prog, m, less, fuel);
    }
    LittleIsLeft(prog, m, fuel);
  }

  lemma {:induction false} LittleIsLeft(prog: Program, m: Machine, fuel: nat)
    requires Run(prog, m, fuel).result == Err(OutOfFuel)
    ensures Run(prog, m, fuel).left < 11
    decreases fuel
  {
    hide Exec, Cost;
    ChargesAreSmall(prog, m.pc);
    FailsAreNotFuel(prog, m);
    if fuel > 0 && fuel >= Cost(prog, m.pc) && Exec(prog, m).Go? {
      LittleIsLeft(prog, Exec(prog, m).m, fuel - Cost(prog, m.pc));
    }
  }

  /** Every value the machine computes or stores stays a 64-bit integer. */
  ghost predicate InRange(i: int) { -TWO_63 <= i < TWO_63 }

  ghost predicate Fits(m: Machine) {
    && (forall i :: 0 <= i < |m.stack| ==> InRange(m.stack[i]))
    && (forall k :: k in m.db && m.db[k].Int? ==> InRange(m.db[k].i))
  }

  ghost predicate ProgramFits(prog: Program) {
    forall i :: 0 <= i < |prog| && prog[i].PushInt? ==> InRange(prog[i].v)
  }

  lemma ExecFits(prog: Program, m: Machine)
    requires ProgramFits(prog) && Fits(m)
    ensures Fits(Exec(prog, m).m)
    ensures Exec(prog, m).Stop? && Exec(prog, m).output.Some? ==> InRange(Exec(prog, m).output.value)
  {
    hide Wrap, InRange;
    WrapFits();
  }

  lemma WrapFits()
    ensures forall i :: InRange(Wrap(i))
    ensures InRange(0)
  {
  }

  lemma {:induction false} RunFits(prog: Program, m: Machine, fuel: nat)
    requires ProgramFits(prog) && Fits(m)
    ensures Fits(Run(prog, m, fuel).m)
    decreases fuel
  {
    ExecFits(prog, m);
    hide Exec, Fits, ProgramFits;
    if fuel > 0 && fuel >= Cost(prog, m.pc) && Exec(prog, m).Go? {
      RunFits(prog, Exec(prog, m).m, fuel - Cost(prog, m.pc));
    }
  }

  // ------------------------------------------------------------ why a run ended

  /** How many operands an instruction takes off the stack. */
  function Pops(i: Instr): nat {
    match i
    case Add => 2
    case Sub => 2
    case Mul => 2
    case Pop => 1
    case Dup => 1
    case StoreInt(_) => 1
    case JumpIfZero(_) => 1
    case _ => 0
  }

  function Pushes(i: Instr): nat {
    match i
    case Dup => 2
    case PushInt(_) => 1
    case LoadInt(_) => 1
    case Add => 1
    case Sub => 1
    case Mul => 1
    case _ => 0
  }

  /** What ends a run at this point, if anything does. */
  function Verdict(prog: Program, m: Machine): Option<Result<Option<int>, VmError>> {
    if m.pc >= |prog| then Some(Err(BadJump(m.pc)))
    else if |m.stack| < Pops(prog[m.pc]) then Some(Err(StackUnderflow))
    else match prog[m.pc]
      case Trap(message) => Some(Err(Trapped(message)))
      case Return => Some(Ok(if m.stack == [] then None else Some(m.stack[|m.stack| - 1])))
      case _ => None
  }

  /**
   * An instruction goes on exactly if nothing ends the run; it then takes its operands,
   * leaves what is below them, and pushes its results, and only a store writes.
   */
  lemma StackDiscipline(prog: Program, m: Machine)
    ensures Exec(prog, m).Go? <==> Verdict(prog, m).None?
    ensures Exec(prog, m).Stop? ==> Verdict(prog, m) == Some(Ok(Exec(prog, m).output))
    ensures Exec(prog, m).Fail? ==> Verdict(prog, m) == Some(Err(Exec(prog, m).error))
    ensures Exec(prog, m).Go? ==> Disciplined(prog[m.pc], m, Exec(prog, m).m)
    ensures !Exec(prog, m).Go? ==> Exec(prog, m).m.db == m.db
  {
    hide Arith, Disciplined;
    if m.pc < |prog| && Exec(prog, m).Go? {
      GoesDisciplined(prog, m);
    }
  }

  ghost predicate Disciplined(i: Instr, m: Machine, m': Machine) {
    var rest := |m.stack| - Pops(i);
    && 0 <= rest && |m'.stack| == rest + Pushes(i) && m'.stack[..rest] == m.stack[..rest]
    && (!i.StoreInt? ==> m'.db == m.db)
  }

  lemma GoesDisciplined(prog: Program, m: Machine)
    requires Exec(prog, m).Go?
    ensures Disciplined(prog[m.pc], m, Exec(prog, m).m)
  {
    hide Arith;
    var s, n := m.stack, |m.stack|;
    var s' := Exec(prog, m).m.stack;
    match prog[m.pc]
    case Dup => assert s'[..n - 1] == s[..n - 1];
    case PushInt(_) => assert s'[..n] == s;
    case LoadInt(_) => assert s'[..n] == s;
    case _ =>
  }

  /** The machine passes through `m'` on its way. */
  ghost predicate Visits(prog: Program, m: Machine, fuel: nat, m': Machine)
    decreases fuel
  {
    || m' == m
    || (fuel > 0 && fuel >= Cost(prog, m.pc) && Exec(prog, m).Go? &&
        Visits(prog, Exec(prog, m).m, fuel - Cost(prog, m.pc), m'))
  }

  /** Every run that does not run out of fuel ends where, and as, something ends it. */
  lemma {:induction false} EndingExplained(prog: Program, m: Machine, fuel: nat) returns (last: Machine)
    requires Run(prog, m, fuel).result != Err(OutOfFuel)
    ensures Visits(prog, m, fuel, last) && Verdict(prog, last) == Some(Run(prog, m, fuel).result)
    ensures Run(prog, m, fuel).m.db == last.db
    decreases fuel
  {
    hide Exec, Verdict;
    StackDiscipline(prog, m);
    ChargesAreSmall(prog, m.pc);
    hide Cost;
    if Exec(prog, m).Go? {
      last := EndingExplained(prog, Exec(prog, m).m, fuel - Cost(prog, m.pc));
    } else {
      last := m;
    }
  }
}
