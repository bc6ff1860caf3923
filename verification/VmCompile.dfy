/**
 * What the machine computes, told apart from how: a little language of numbers,
 * stored counters, tests and loops, with its meaning in plain integers, and a compiler
 * for it. Compiled programs compute the meaning modulo 2^64.
 */
module VmCompile {
  import opened Base
  import opened Vm

  // ------------------------------------------------------------ the language and its meaning

  datatype Expr =
    | Const(i: int)
    | Stored(key: Key)
    | Plus(a: Expr, b: Expr)
    | Minus(a: Expr, b: Expr)
    | Times(a: Expr, b: Expr)
    | Square(a: Expr)
    | IfZero(test: Expr, a: Expr, b: Expr)

  datatype Stmt =
    | Skip
    | Assign(key: Key, e: Expr)
    | Ignore(e: Expr)
    | Both(first: Stmt, second: Stmt)
    | While(test: Expr, body: Stmt)

  /** The number stored under a key; what is absent or no number counts as 0. */
  function Number(db: Store, key: Key): int {
    if key in db && db[key].Int? then db[key].i else 0
  }

  /** In integers without bounds; a test asks for zero modulo 2^64. */
  function Meaning(e: Expr, db: Store): int {
    match e
    case Const(i) => i
    case Stored(key) => Number(db, key)
    case Plus(a, b) => Meaning(a, db) + Meaning(b, db)
    case Minus(a, b) => Meaning(a, db) - Meaning(b, db)
    case Times(a, b) => Meaning(a, db) * Meaning(b, db)
    case Square(a) => Meaning(a, db) * Meaning(a, db)
    case IfZero(t, a, b) => if Meaning(t, db) % TWO_64 == 0 then Meaning(a, db) else Meaning(b, db)
  }

  /** The number in the machine's range that differs by a multiple of 2^64. */
  ghost predicate Represents(v: int, i: int) {
    -0x8000_0000_0000_0000 <= v < 0x8000_0000_0000_0000 && (v - i) % 0x1_0000_0000_0000_0000 == 0
  }

  /** One store is another but for a number, given modulo 2^64, under one key. */
  ghost predicate Assigned(db: Store, db': Store, key: Key, i: int) {
    && (forall k :: k in db' <==> k in db || k == key)
    && (forall k :: k in db && k != key ==> db'[k] == db[k])
    && key in db' && db'[key].Int? && Represents(db'[key].i, i)
  }

  /** What an expression costs: ten more for every counter read. */
  function Price(e: Expr, db: Store): nat {
    match e
    case Const(_) => 1
    case Stored(_) => 11
    case Square(a) => Price(a, db) + 2
    case IfZero(t, a, b) =>
      Price(t, db) + 1 + if Meaning(t, db) % TWO_64 == 0 then Price(a, db) else Price(b, db) + 1
    case _ => Price(e.a, db) + Price(e.b, db) + 1
  }

  /** What a statement does with the store, and what it costs; its loops turn at most `n` times. */
  ghost predicate Does(s: Stmt, db: Store, db': Store, n: nat, fuel: nat)
    decreases n, s, 0
  {
    match s
    case Skip => db' == db && fuel == 0
    case Assign(key, e) => Assigned(db, db', key, Meaning(e, db)) && fuel == Price(e, db) + 11
    case Ignore(e) => db' == db && fuel == Price(e, db) + 1
    case Both(first, second) =>
      exists mid, f: nat :: f <= fuel && Does(first, db, mid, n, f) && Does(second, mid, db', n, fuel - f)
    case While(test, body) =>
      if Meaning(test, db) % TWO_64 == 0 then db' == db && fuel == Price(test, db) + 1
      else n > 0 && fuel >= Price(test, db) + 2 && TurnsOn(s, test, body, db, db', n, fuel - Price(test, db) - 2)
  }

  /** The body once, then the loop again. */
  ghost predicate TurnsOn(s: Stmt, test: Expr, body: Stmt, db: Store, db': Store, n: nat, fuel: nat)
    requires s == While(test, body) && n > 0
    decreases n, body, 1
  {
    exists mid, f: nat :: f <= fuel && Does(body, db, mid, n, f) && Does(s, mid, db', n - 1, fuel - f)
  }

  // ------------------------------------------------------------ the compiler

  function Size(e: Expr): nat {
    match e
    case Const(_) => 1
    case Stored(_) => 1
    case Square(a) => Size(a) + 2
    case IfZero(t, a, b) => Size(t) + Size(a) + Size(b) + 2
    case _ => Size(e.a) + Size(e.b) + 1
  }

  /** The code of an expression that starts at `at`. */
  function Code(e: Expr, at: nat): (c: Program)
    ensures |c| == Size(e)
  {
    match e
    case Const(i) => [PushInt(i)]
    case Stored(key) => [LoadInt(key)]
    case Plus(a, b) => Code(a, at) + Code(b, at + Size(a)) + [Add]
    case Minus(a, b) => Code(a, at) + Code(b, at + Size(a)) + [Sub]
    case Times(a, b) => Code(a, at) + Code(b, at + Size(a)) + [Mul]
    case Square(a) => Code(a, at) + [Dup, Mul]
    case IfZero(t, a, b) =>
      var other := at + Size(t) + 1;
      var then_ := other + Size(b) + 1;
      Code(t, at) + [JumpIfZero(then_)] + Code(b, other) + [Jump(then_ + Size(a))] + Code(a, then_)
  }

  function Length(s: Stmt): nat {
    match s
    case Skip => 0
    case Assign(_, e) => Size(e) + 1
    case Ignore(e) => Size(e) + 1
    case Both(first, second) => Length(first) + Length(second)
    case While(test, body) => Size(test) + Length(body) + 2
  }

  function Compiled(s: Stmt, at: nat): (c: Program)
    ensures |c| == Length(s)
  {
    match s
    case Skip => []
    case Assign(key, e) => Code(e, at) + [StoreInt(key)]
    case Ignore(e) => Code(e, at) + [Instr.Pop]
    case Both(first, second) => Compiled(first, at) + Compiled(second, at + Length(first))
    case While(test, body) =>
      var inside := at + Size(test) + 1;
      Code(test, at) + [JumpIfZero(inside + Length(body) + 1)] + Compiled(body, inside) + [Jump(at)]
  }

  // ------------------------------------------------------------ runs in pieces

  /** The code stands in the program at this place. */
  ghost predicate Holds(prog: Program, at: nat, code: Program) {
    at + |code| <= |prog| && prog[at..at + |code|] == code
  }

  lemma HoldsParts(prog: Program, at: nat, a: Program, b: Program)
    requires Holds(prog, at, a + b)
    ensures Holds(prog, at, a) && Holds(prog, at + |a|, b)
  {
    var c := prog[at..at + |a + b|];
    assert c[..|a|] == a && c[|a|..] == b;
    assert prog[at..at + |a|] == c[..|a|];
    assert prog[at + |a|..at + |a| + |b|] == c[|a|..];
  }

  lemma HoldsOne(prog: Program, at: nat, i: Instr)
    requires Holds(prog, at, [i])
    ensures at < |prog| && prog[at] == i
  {
    assert prog[at..at + 1][0] == prog[at];
  }

  /** With `used` fuel the machine gets from one state to another, and has the rest for what follows. */
  ghost predicate Goes(prog: Program, m: Machine, used: nat, m': Machine) {
    forall extra: nat :: Run(prog, m, used + extra) == Run(prog, m', extra)
  }

  lemma GoesOn(prog: Program, a: Machine, u: nat, b: Machine, v: nat, c: Machine)
    requires Goes(prog, a, u, b) && Goes(prog, b, v, c)
    ensures Goes(prog, a, u + v, c)
  {
    forall extra: nat ensures Run(prog, a, u + v + extra) == Run(prog, c, extra) {
      assert Run(prog, a, u + (v + extra)) == Run(prog, b, v + extra);
    }
  }

  lemma GoesOne(prog: Program, m: Machine)
    requires Exec(prog, m).Go?
    ensures Goes(prog, m, Cost(prog, m.pc), Exec(prog, m).m)
  {
    hide Exec;
    var u := Cost(prog, m.pc);
    ChargesAreSmall(prog, m.pc);
    hide Cost;
    forall extra: nat ensures Run(prog, m, u + extra) == Run(prog, Exec(prog, m).m, extra) {
    }
  }

  // ------------------------------------------------------------ numbers modulo 2^64

  lemma WrapRepresents(i: int)
    ensures Represents(Wrap(i), i)
  {
    var M := 0x1_0000_0000_0000_0000;
    var q := (i + TWO_63) / M;
    assert i + TWO_63 == q * M + (i + TWO_63) % M;
    assert Wrap(i) - i == -q * M;
    assert (-q * M) % M == 0;
  }

  lemma Multiple(i: int, k: int)
    ensures i == k * 0x1_0000_0000_0000_0000 ==> i % 0x1_0000_0000_0000_0000 == 0
  {
  }

  /** Wrapping a sum, difference or product of representatives represents the exact one. */
  lemma OpsRepresent(v: int, i: int, w: int, k: int)
    requires Represents(v, i) && Represents(w, k)
    ensures Represents(Wrap(v + w), i + k)
    ensures Represents(Wrap(v - w), i - k)
    ensures Represents(Wrap(v * w), i * k)
  {
    var M := 0x1_0000_0000_0000_0000;
    var p, q := (v - i) / M, (w - k) / M;
    assert v == i + p * M && w == k + q * M;
    StillRepresents(v + w, i + k, p + q);
    StillRepresents(v - w, i - k, p - q);
    ProductDiffers(v, i, w, k, p, q);
    StillRepresents(v * w, i * k, p * w + i * q);
  }

  lemma ProductDiffers(v: int, i: int, w: int, k: int, p: int, q: int)
    requires v == i + p * 0x1_0000_0000_0000_0000 && w == k + q * 0x1_0000_0000_0000_0000
    ensures v * w == i * k + (p * w + i * q) * 0x1_0000_0000_0000_0000
  {
    var M := 0x1_0000_0000_0000_0000;
    calc {
      v * w;
      (i + p * M) * w;
      i * w + (p * M) * w;
      i * (k + q * M) + (p * w) * M;
      i * k + i * (q * M) + (p * w) * M;
      i * k + (i * q) * M + (p * w) * M;
    }
  }

  lemma StillRepresents(x: int, i: int, k: int)
    requires x == i + k * 0x1_0000_0000_0000_0000
    ensures Represents(Wrap(x), i)
  {
    WrapRepresents(x);
    var M := 0x1_0000_0000_0000_0000;
    var q := (Wrap(x) - x) / M;
    assert Wrap(x) - i == (q + k) * M;
    hide Wrap;
    Multiple(Wrap(x) - i, q + k);
  }

  /** A representative is zero exactly if the number is zero modulo 2^64. */
  lemma ZeroRepresents(v: int, i: int)
    requires Represents(v, i)
    ensures v == 0 <==> i % TWO_64 == 0
  {
  }

  // ------------------------------------------------------------ expressions

  /** Constants are 64-bit numbers. */
  predicate Fitting(e: Expr) {
    match e
    case Const(i) => -TWO_63 <= i < TWO_63
    case Stored(_) => true
    case Square(a) => Fitting(a)
    case IfZero(t, a, b) => Fitting(t) && Fitting(a) && Fitting(b)
    case _ => Fitting(e.a) && Fitting(e.b)
  }

  predicate FittingStmt(s: Stmt) {
    match s
    case Skip => true
    case Assign(_, e) => Fitting(e)
    case Ignore(e) => Fitting(e)
    case Both(first, second) => FittingStmt(first) && FittingStmt(second)
    case While(test, body) => Fitting(test) && FittingStmt(body)
  }

  /** Stored numbers are 64-bit numbers. */
  ghost predicate Sound(db: Store) {
    forall k :: k in db && db[k].Int? ==> -TWO_63 <= db[k].i < TWO_63
  }

  /** From `at` the machine leaves, on top of the stack, what represents the meaning. */
  ghost predicate Leaves(prog: Program, at: nat, stack: seq<int>, db: Store, e: Expr, v: int) {
    && Represents(v, Meaning(e, db))
    && Goes(prog, Machine(at, stack, db), Price(e, db), Machine(at + Size(e), stack + [v], db))
  }

  lemma {:induction false} ExprRuns(e: Expr, prog: Program, at: nat, stack: seq<int>, db: Store) returns (v: int)
    requires Holds(prog, at, Code(e, at)) && Fitting(e) && Sound(db)
    ensures Leaves(prog, at, stack, db, e, v)
    decreases e
  {
    hide Goes, Represents, Wrap, Exec, Holds, Leaves;
    match e
    case Const(i) => v := ConstRuns(e, prog, at, stack, db);
    case Stored(key) => v := LoadRuns(e, prog, at, stack, db);
    case Square(a) =>
      HoldsParts(prog, at, Code(a, at), [Dup, Mul]);
      var w := ExprRuns(a, prog, at, stack, db);
      v := SquareRuns(e, prog, at, stack, db, w);
    case IfZero(t, a, b) => v := TestRuns(e, prog, at, stack, db);
    case _ => v := PairRuns(e, prog, at, stack, db);
  }

  lemma {:induction false} PairRuns(e: Expr, prog: Program, at: nat, stack: seq<int>, db: Store) returns (v: int)
    requires (e.Plus? || e.Minus? || e.Times?) && Holds(prog, at, Code(e, at)) && Fitting(e) && Sound(db)
    ensures Leaves(prog, at, stack, db, e, v)
    decreases e, 0
  {
    hide Goes, Represents, Wrap, Exec, Holds, Leaves, Code, Size, Sound, Run;
    var op := if e.Plus? then Add else if e.Minus? then Sub else Mul;
    var mid := at + Size(e.a);
    PairParts(e, prog, at, op);
    var x := ExprRuns(e.a, prog, at, stack, db);
    var y := ExprRuns(e.b, prog, mid, stack + [x], db);
    v := BinaryRuns(e, prog, at, stack, db, op, x, y);
  }

  lemma {:induction false} PairParts(e: Expr, prog: Program, at: nat, op: Instr)
    requires (e.Plus? && op == Add) || (e.Minus? && op == Sub) || (e.Times? && op == Mul)
    requires Holds(prog, at, Code(e, at))
    ensures Holds(prog, at, Code(e.a, at)) && Holds(prog, at + Size(e.a), Code(e.b, at + Size(e.a)))
    ensures Holds(prog, at + Size(e.a) + Size(e.b), [op])
  {
    var mid := at + Size(e.a);
    hide Holds;
    HoldsParts(prog, at, Code(e.a, at) + Code(e.b, mid), [op]);
    HoldsParts(prog, at, Code(e.a, at), Code(e.b, mid));
  }

  lemma {:induction false} ConstRuns(e: Expr, prog: Program, at: nat, stack: seq<int>, db: Store) returns (v: int)
    requires e.Const? && Holds(prog, at, [PushInt(e.i)]) && Fitting(e)
    ensures Leaves(prog, at, stack, db, e, v)
  {
    hide Goes, Holds;
    v := e.i;
    HoldsOne(prog, at, PushInt(v));
    GoesOne(prog, Machine(at, stack, db));
  }

  lemma {:induction false} LoadRuns(e: Expr, prog: Program, at: nat, stack: seq<int>, db: Store) returns (v: int)
    requires e.Stored? && Holds(prog, at, [LoadInt(e.key)]) && Sound(db)
    ensures Leaves(prog, at, stack, db, e, v)
  {
    hide Goes, Holds;
    v := Number(db, e.key);
    HoldsOne(prog, at, LoadInt(e.key));
    GoesOne(prog, Machine(at, stack, db));
  }

  lemma {:induction false} SquareRuns(e: Expr, prog: Program, at: nat, stack: seq<int>, db: Store, w: int)
    returns (v: int)
    requires e.Square? && Holds(prog, at + Size(e.a), [Dup, Mul]) && Leaves(prog, at, stack, db, e.a, w)
    ensures Leaves(prog, at, stack, db, e, v)
  {
    hide Goes, Represents, Holds, Wrap;
    var mid := at + Size(e.a);
    assert [Dup, Mul] == [Dup] + [Mul];
    HoldsParts(prog, mid, [Dup], [Mul]);
    HoldsOne(prog, mid, Dup);
    HoldsOne(prog, mid + 1, Mul);
    var m, m' := Machine(mid, stack + [w], db), Machine(mid + 1, stack + [w] + [w], db);
    GoesOne(prog, m);
    GoesOne(prog, m');
    v := Wrap(w * w);
    assert (stack + [w] + [w])[..|stack|] == stack;
    OpsRepresent(w, Meaning(e.a, db), w, Meaning(e.a, db));
    GoesOn(prog, m, 1, m', 1, Machine(mid + 2, stack + [v], db));
    GoesOn(prog, Machine(at, stack, db), Price(e.a, db), m, 2, Machine(mid + 2, stack + [v], db));
  }

  lemma {:induction false} BinaryRuns(e: Expr, prog: Program, at: nat, stack: seq<int>, db: Store, op: Instr,
                                      x: int, y: int)
    returns (v: int)
    requires (e.Plus? && op == Add) || (e.Minus? && op == Sub) || (e.Times? && op == Mul)
    requires Holds(prog, at + Size(e.a) + Size(e.b), [op])
    requires Leaves(prog, at, stack, db, e.a, x) && Leaves(prog, at + Size(e.a), stack + [x], db, e.b, y)
    ensures Leaves(prog, at, stack, db, e, v)
  {
    hide Goes, Represents, Holds, Wrap;
    var mid, end := at + Size(e.a), at + Size(e.a) + Size(e.b);
    HoldsOne(prog, end, op);
    var m, m' := Machine(mid, stack + [x], db), Machine(end, stack + [x] + [y], db);
    GoesOne(prog, m');
    v := Arith(op, x, y);
    assert (stack + [x] + [y])[..|stack|] == stack;
    OpsRepresent(x, Meaning(e.a, db), y, Meaning(e.b, db));
    GoesOn(prog, Machine(at, stack, db), Price(e.a, db), m, Price(e.b, db), m');
    GoesOn(prog, Machine(at, stack, db), Price(e.a, db) + Price(e.b, db), m', 1, Machine(end + 1, stack + [v], db));
  }

  lemma {:induction false} TestRuns(e: Expr, prog: Program, at: nat, stack: seq<int>, db: Store) returns (v: int)
    requires e.IfZero? && Holds(prog, at, Code(e, at)) && Fitting(e) && Sound(db)
    ensures Leaves(prog, at, stack, db, e, v)
    decreases e, 0
  {
    hide Goes, Represents, Holds, Exec, Wrap;
    var test := at + Size(e.test);
    var other := test + 1;
    var then_ := other + Size(e.b) + 1;
    var end := then_ + Size(e.a);
    TestParts(e, prog, at);
    var x := ExprRuns(e.test, prog, at, stack, db);
    ZeroRepresents(x, Meaning(e.test, db));
    var m := Machine(test, stack + [x], db);
    Branches(prog, m, then_, stack, x);
    if x == 0 {
      v := ExprRuns(e.a, prog, then_, stack, db);
      GoesOn(prog, m, 1, Machine(then_, stack, db), Price(e.a, db), Machine(end, stack + [v], db));
    } else {
      v := ExprRuns(e.b, prog, other, stack, db);
      Jumps(prog, then_ - 1, stack + [v], db, end);
      GoesOn(prog, m, 1, Machine(other, stack, db), Price(e.b, db), Machine(then_ - 1, stack + [v], db));
      GoesOn(prog, m, 1 + Price(e.b, db), Machine(then_ - 1, stack + [v], db), 1, Machine(end, stack + [v], db));
    }
    GoesOn(prog, Machine(at, stack, db), Price(e.test, db), m, Price(e, db) - Price(e.test, db),
      Machine(end, stack + [v], db));
  }

  lemma {:induction false} TestParts(e: Expr, prog: Program, at: nat)
    requires e.IfZero? && Holds(prog, at, Code(e, at))
    ensures var test := at + Size(e.test); var other := test + 1; var then_ := other + Size(e.b) + 1;
      && Holds(prog, at, Code(e.test, at)) && Holds(prog, test, [JumpIfZero(then_)])
      && Holds(prog, other, Code(e.b, other)) && Holds(prog, then_ - 1, [Jump(then_ + Size(e.a))])
      && Holds(prog, then_, Code(e.a, then_))
  {
    var test := at + Size(e.test);
    var other := test + 1;
    var then_ := other + Size(e.b) + 1;
    var c, j, b, k, a := Code(e.test, at), [JumpIfZero(then_)], Code(e.b, other), [Jump(then_ + Size(e.a))],
      Code(e.a, then_);
    hide Holds;
    assert Code(e, at) == c + j + b + k + a;
    hide Code;
    HoldsParts(prog, at, c + j + b + k, a);
    HoldsFour(prog, at, c, j, b, k);
  }

  lemma Branches(prog: Program, m: Machine, target: nat, stack: seq<int>, x: int)
    requires m.stack == stack + [x] && Holds(prog, m.pc, [JumpIfZero(target)])
    ensures Goes(prog, m, 1, Machine(if x == 0 then target else m.pc + 1, stack, m.db))
  {
    hide Goes;
    HoldsOne(prog, m.pc, JumpIfZero(target));
    GoesOne(prog, m);
    assert m.stack[..|stack|] == stack;
  }

  lemma Jumps(prog: Program, at: nat, stack: seq<int>, db: Store, target: nat)
    requires Holds(prog, at, [Jump(target)])
    ensures Goes(prog, Machine(at, stack, db), 1, Machine(target, stack, db))
  {
    hide Goes;
    HoldsOne(prog, at, Jump(target));
    GoesOne(prog, Machine(at, stack, db));
  }

  // ------------------------------------------------------------ statements

  lemma Stores(prog: Program, at: nat, stack: seq<int>, db: Store, key: Key, v: int)
    requires Holds(prog, at, [StoreInt(key)])
    ensures Goes(prog, Machine(at, stack + [v], db), 11, Machine(at + 1, stack, db[key := Int(v)]))
  {
    hide Goes;
    HoldsOne(prog, at, StoreInt(key));
    GoesOne(prog, Machine(at, stack + [v], db));
    assert (stack + [v])[..|stack|] == stack;
  }

  lemma Drops(prog: Program, at: nat, stack: seq<int>, db: Store, v: int)
    requires Holds(prog, at, [Instr.Pop])
    ensures Goes(prog, Machine(at, stack + [v], db), 1, Machine(at + 1, stack, db))
  {
    hide Goes;
    HoldsOne(prog, at, Instr.Pop);
    GoesOne(prog, Machine(at, stack + [v], db));
    assert (stack + [v])[..|stack|] == stack;
  }

  /** Two numbers in range that represent the same one are equal. */
  lemma OneRepresentative(v: int, w: int, i: int)
    requires Represents(v, i) && Represents(w, i)
    ensures v == w
  {
    var M := 0x1_0000_0000_0000_0000;
    var p, q := (v - i) / M, (w - i) / M;
    assert v - w == (p - q) * M;
  }

  lemma {:induction false} StmtRuns(s: Stmt, prog: Program, at: nat, stack: seq<int>, db: Store, db': Store, n: nat,
                                    fuel: nat)
    requires Holds(prog, at, Compiled(s, at)) && FittingStmt(s) && Sound(db) && Does(s, db, db', n, fuel)
    ensures Goes(prog, Machine(at, stack, db), fuel, Machine(at + Length(s), stack, db')) && Sound(db')
    decreases n, s
  {
    hide Goes, Represents, Holds, Exec, Meaning, Price, Sound, Assigned, Code, Run;
    match s
    case Skip => GoesNowhere(prog, Machine(at, stack, db));
    case Assign(key, e) => AssignRuns(prog, at, stack, db, db', key, e);
    case Ignore(e) => IgnoreRuns(prog, at, stack, db, e);
    case Both(first, second) => BothRuns(s, prog, at, stack, db, db', n, fuel);
    case While(test, body) => WhileRuns(s, prog, at, stack, db, db', n, fuel);
  }

  lemma {:induction false} IgnoreRuns(prog: Program, at: nat, stack: seq<int>, db: Store, e: Expr)
    requires Holds(prog, at, Code(e, at) + [Instr.Pop]) && Fitting(e) && Sound(db)
    ensures Goes(prog, Machine(at, stack, db), Price(e, db) + 1, Machine(at + Size(e) + 1, stack, db))
  {
    hide Goes, Holds, Meaning, Price, Represents, Code, Run, Exec;
    HoldsParts(prog, at, Code(e, at), [Instr.Pop]);
    var v := ExprRuns(e, prog, at, stack, db);
    Drops(prog, at + Size(e), stack, db, v);
    GoesOn(prog, Machine(at, stack, db), Price(e, db), Machine(at + Size(e), stack + [v], db), 1,
      Machine(at + Size(e) + 1, stack, db));
  }

  lemma {:induction false} BothDoes(s: Stmt, db: Store, db': Store, n: nat, fuel: nat) returns (mid: Store, f: nat)
    requires s.Both? && Does(s, db, db', n, fuel)
    ensures f <= fuel && Does(s.first, db, mid, n, f) && Does(s.second, mid, db', n, fuel - f)
  {
    mid, f :| f <= fuel && Does(s.first, db, mid, n, f) && Does(s.second, mid, db', n, fuel - f);
  }

  lemma {:induction false} BothParts(s: Stmt, prog: Program, at: nat)
    requires s.Both? && Holds(prog, at, Compiled(s, at)) && FittingStmt(s)
    ensures Holds(prog, at, Compiled(s.first, at)) && FittingStmt(s.first) && FittingStmt(s.second)
    ensures Holds(prog, at + Length(s.first), Compiled(s.second, at + Length(s.first)))
    ensures Length(s) == Length(s.first) + Length(s.second)
  {
    hide Holds;
    HoldsParts(prog, at, Compiled(s.first, at), Compiled(s.second, at + Length(s.first)));
  }

  lemma {:induction false} BothRuns(s: Stmt, prog: Program, at: nat, stack: seq<int>, db: Store, db': Store, n: nat,
                                    fuel: nat)
    requires s.Both? && Holds(prog, at, Compiled(s, at)) && FittingStmt(s) && Sound(db) && Does(s, db, db', n, fuel)
    ensures Goes(prog, Machine(at, stack, db), fuel, Machine(at + Length(s), stack, db')) && Sound(db')
    decreases n, s, 0
  {
    hide Goes, Holds, Sound, Does, Run, Compiled, FittingStmt, Length, Code;
    var first, second := s.first, s.second;
    var mid, f := BothDoes(s, db, db', n, fuel);
    var next := at + Length(first);
    BothParts(s, prog, at);
    StmtRuns(first, prog, at, stack, db, mid, n, f);
    StmtRuns(second, prog, next, stack, mid, db', n, fuel - f);
    GoesOn(prog, Machine(at, stack, db), f, Machine(next, stack, mid), fuel - f,
      Machine(next + Length(second), stack, db'));
  }

  lemma GoesNowhere(prog: Program, m: Machine)
    ensures Goes(prog, m, 0, m)
  {
    hide Run;
  }

  lemma {:induction false} AssignRuns(prog: Program, at: nat, stack: seq<int>, db: Store, db': Store, key: Key, e: Expr)
    requires Holds(prog, at, Code(e, at) + [StoreInt(key)]) && Fitting(e) && Sound(db)
    requires Assigned(db, db', key, Meaning(e, db))
    ensures Goes(prog, Machine(at, stack, db), Price(e, db) + 11, Machine(at + Size(e) + 1, stack, db')) && Sound(db')
  {
    hide Goes, Holds, Meaning, Price, Represents;
    HoldsParts(prog, at, Code(e, at), [StoreInt(key)]);
    var v := ExprRuns(e, prog, at, stack, db);
    Stores(prog, at + Size(e), stack, db, key, v);
    OneRepresentative(v, db'[key].i, Meaning(e, db));
    assert db' == db[key := Int(v)];
    GoesOn(prog, Machine(at, stack, db), Price(e, db), Machine(at + Size(e), stack + [v], db), 11,
      Machine(at + Size(e) + 1, stack, db'));
    RepresentativeFits(v, Meaning(e, db));
  }

  lemma RepresentativeFits(v: int, i: int)
    requires Represents(v, i)
    ensures -TWO_63 <= v < TWO_63
  {
  }

  lemma {:induction false} WhileParts(test: Expr, body: Stmt, prog: Program, at: nat)
    requires Holds(prog, at, Compiled(While(test, body), at))
    ensures var inside := at + Size(test) + 1;
      && Holds(prog, at, Code(test, at)) && Holds(prog, inside - 1, [JumpIfZero(inside + Length(body) + 1)])
      && Holds(prog, inside, Compiled(body, inside)) && Holds(prog, inside + Length(body), [Jump(at)])
  {
    var inside := at + Size(test) + 1;
    hide Holds, Code, Compiled, Length;
    CompiledWhile(test, body, at);
    HoldsFour(prog, at, Code(test, at), [JumpIfZero(inside + Length(body) + 1)], Compiled(body, inside), [Jump(at)]);
  }

  lemma {:induction false} CompiledWhile(test: Expr, body: Stmt, at: nat)
    ensures var inside := at + Size(test) + 1;
      Compiled(While(test, body), at) ==
        Code(test, at) + [JumpIfZero(inside + Length(body) + 1)] + Compiled(body, inside) + [Jump(at)]
  {
    hide Code;
  }

  lemma HoldsFour(prog: Program, at: nat, a: Program, b: Program, c: Program, d: Program)
    requires Holds(prog, at, a + b + c + d)
    ensures Holds(prog, at, a) && Holds(prog, at + |a|, b) && Holds(prog, at + |a| + |b|, c)
    ensures Holds(prog, at + |a| + |b| + |c|, d)
  {
    hide Holds;
    HoldsParts(prog, at, a + b + c, d);
    HoldsParts(prog, at, a + b, c);
    HoldsParts(prog, at, a, b);
  }

  lemma {:induction false} TurnDoes(s: Stmt, db: Store, db': Store, n: nat, fuel: nat) returns (mid: Store, f: nat)
    requires s.While? && Does(s, db, db', n, fuel) && Meaning(s.test, db) % TWO_64 != 0
    ensures n > 0 && fuel >= Price(s.test, db) + 2
    ensures var rest := fuel - Price(s.test, db) - 2;
      f <= rest && Does(s.body, db, mid, n, f) && Does(s, mid, db', n - 1, rest - f)
  {
    hide Meaning, Price;
    var rest := fuel - Price(s.test, db) - 2;
    assert TurnsOn(s, s.test, s.body, db, db', n, rest);
    mid, f :| f <= rest && Does(s.body, db, mid, n, f) && Does(s, mid, db', n - 1, rest - f);
  }

  lemma {:induction false} LoopEnds(s: Stmt, db: Store, db': Store, n: nat, fuel: nat)
    requires s.While? && Does(s, db, db', n, fuel) && Meaning(s.test, db) % TWO_64 == 0
    ensures db' == db && fuel == Price(s.test, db) + 1
  {
    hide Meaning, Price;
  }

  lemma {:induction false} WhileRuns(s: Stmt, prog: Program, at: nat, stack: seq<int>, db: Store, db': Store, n: nat,
                                     fuel: nat)
    requires s.While? && Holds(prog, at, Compiled(s, at)) && FittingStmt(s) && Sound(db) && Does(s, db, db', n, fuel)
    ensures Goes(prog, Machine(at, stack, db), fuel, Machine(at + Length(s), stack, db')) && Sound(db')
    decreases n, s, 0
  {
    hide Goes, Represents, Holds, Exec, Meaning, Price, Sound, Run, Code, Does, Compiled;
    var test, body := s.test, s.body;
    var inside := at + Size(test) + 1;
    var end := inside + Length(body) + 1;
    WhileParts(test, body, prog, at);
    var x := ExprRuns(test, prog, at, stack, db);
    ZeroRepresents(x, Meaning(test, db));
    var m, p := Machine(inside - 1, stack + [x], db), Price(test, db);
    Branches(prog, m, end, stack, x);
    if x == 0 {
      LoopEnds(s, db, db', n, fuel);
      GoesOn(prog, Machine(at, stack, db), p, m, 1, Machine(end, stack, db));
    } else {
      GoesOn(prog, Machine(at, stack, db), p, m, 1, Machine(inside, stack, db));
      var rest := fuel - p - 2;
      var mid, f := TurnDoes(s, db, db', n, fuel);
      StmtRuns(body, prog, inside, stack, db, mid, n, f);
      Jumps(prog, end - 1, stack, mid, at);
      StmtRuns(s, prog, at, stack, mid, db', n - 1, rest - f);
      var start := Machine(at, stack, db);
      GoesOn(prog, start, p + 1, Machine(inside, stack, db), f, Machine(end - 1, stack, mid));
      GoesOn(prog, start, p + 1 + f, Machine(end - 1, stack, mid), 1, Machine(at, stack, mid));
      GoesOn(prog, start, p + 2 + f, Machine(at, stack, mid), rest - f, Machine(end, stack, db'));
    }
  }

  // ------------------------------------------------------------ whole programs

  /** A statement, then the value of an expression. */
  function Whole(s: Stmt, e: Expr): Program {
    Compiled(s, 0) + Code(e, Length(s)) + [Return]
  }

  /**
   * Compiled programs compute their meaning: with enough fuel the answer represents the
   * expression's meaning in the store the statement makes, and exactly the stated fuel
   * is used; with less they run out.
   */
  lemma {:induction false} CompiledRuns(s: Stmt, e: Expr, db: Store, db': Store, n: nat, fuel: nat, budget: nat)
    requires FittingStmt(s) && Fitting(e) && Sound(db) && Does(s, db, db', n, fuel)
    ensures var need := fuel + Price(e, db') + 1; var r := Run(Whole(s, e), Machine(0, [], db), budget);
      if budget < need then r.result == Err(OutOfFuel)
      else
        && r.result.Ok? && r.result.value.Some? && Represents(r.result.value.value, Meaning(e, db'))
        && r.m.db == db' && r.left == budget - need
  {
    hide Goes, Represents, Holds, Meaning, Price, Sound, Run, Code, Compiled, Does, Exec, Whole, Length;
    var prog, at := Whole(s, e), Length(s);
    WholeParts(s, e);
    StmtRuns(s, prog, 0, [], db, db', n, fuel);
    var v := ExprRuns(e, prog, at, [], db');
    assert [] + [v] == [v];
    var start, end := Machine(0, [], db), Machine(at + Size(e), [v], db');
    GoesOn(prog, start, fuel, Machine(at, [], db'), Price(e, db'), end);
    var need := fuel + Price(e, db') + 1;
    RunsOut(prog, start, need - 1, end, 1);
    Returns(prog, end, v);
    FuelTransparency(prog, start, need, budget);
  }

  lemma Returns(prog: Program, m: Machine, v: int)
    requires Holds(prog, m.pc, [Return]) && m.stack == [v]
    ensures var r := Run(prog, m, 1); r.result == Ok(Some(v)) && r.left == 0 && r.m.db == m.db
  {
    HoldsOne(prog, m.pc, Return);
  }

  lemma {:induction false} WholeParts(s: Stmt, e: Expr)
    ensures var prog, at := Whole(s, e), Length(s);
      Holds(prog, 0, Compiled(s, 0)) && Holds(prog, at, Code(e, at)) && Holds(prog, at + Size(e), [Return])
  {
    hide Code, Compiled, Length;
    var prog, at := Whole(s, e), Length(s);
    assert prog[0..|prog|] == prog;
    assert Holds(prog, 0, prog);
    hide Holds;
    HoldsParts(prog, 0, Compiled(s, 0) + Code(e, at), [Return]);
    HoldsParts(prog, 0, Compiled(s, 0), Code(e, at));
  }

  lemma RunsOut(prog: Program, m: Machine, used: nat, m': Machine, extra: nat)
    requires Goes(prog, m, used, m')
    ensures Run(prog, m, used + extra) == Run(prog, m', extra)
  {
    hide Run;
  }

  /** The interpreter itself, on a compiled program. */
  method Evaluate(s: Stmt, e: Expr, snapshot: Store, budget: nat, ghost db': Store, ghost n: nat, ghost fuel: nat)
    returns (r: Result<Option<int>, VmError>, after: Store, left: nat)
    requires FittingStmt(s) && Fitting(e) && Sound(snapshot) && Does(s, snapshot, db', n, fuel)
    ensures var need := fuel + Price(e, db') + 1;
      if budget < need then r == Err(OutOfFuel)
      else
        && r.Ok? && r.value.Some? && Represents(r.value.value, Meaning(e, db'))
        && after == db' && left == budget - need
  {
    hide Represents, Meaning, Price, Run, Does, Whole;
    CompiledRuns(s, e, snapshot, db', n, fuel, budget);
    var txn := new Txn(snapshot);
    var vm := new Vm(budget);
    r := vm.RunProgram(Whole(s, e), txn);
    after, left := txn.db, vm.fuel;
  }
}
