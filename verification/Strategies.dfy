/** The shape all strategies share: what a chain of populate methods leaves in the flags, what its indicator columns
    hold, and when it may run on a frame that others have written to. */
module Strategies {
  import opened Common
  import opened SignalRows
  import opened Columns

  // ---------- The shape every strategy shares ----------

  const ZERO := Lit(Num(0.0))
  const ONE := Lit(Num(1.0))

  function BothSides(): Expr { Two(And, Two(Eq, Col("enter_long"), ONE), Two(Eq, Col("enter_short"), ONE)) }

  /** populate_entry_trend: zero the flags, set them where the conditions hold, reset both where they clash. */
  function Entry(long: Expr, short: Expr, longTag: string, shortTag: string): seq<Stmt> {
    [Set("enter_long", ZERO), Set("enter_short", ZERO), Set("enter_tag", Lit(Text(""))),
     Loc(long, map["enter_long" := Num(1.0), "enter_tag" := Text(longTag)]),
     Loc(short, map["enter_short" := Num(1.0), "enter_tag" := Text(shortTag)]),
     Loc(BothSides(), map["enter_long" := Num(0.0), "enter_short" := Num(0.0), "enter_tag" := Text("")])]
  }

  /** populate_exit_trend */
  function Exit(exitLong: Expr, exitShort: Expr): seq<Stmt> {
    [Set("exit_long", ZERO), Set("exit_short", ZERO),
     Loc(exitLong, map["exit_long" := Num(1.0)]), Loc(exitShort, map["exit_short" := Num(1.0)])]
  }

  datatype Strategy = Strategy(indicators: seq<Stmt>, long: Expr, short: Expr, longTag: string, shortTag: string,
                               exitLong: Expr, exitShort: Expr)

  /** The three populate methods, one after the other. */
  function Chain(s: Strategy): seq<Stmt> {
    s.indicators + Entry(s.long, s.short, s.longTag, s.shortTag) + Exit(s.exitLong, s.exitShort)
  }

  const ENTRY_COLUMNS: set<string> := {"enter_long", "enter_short", "enter_tag"}
  const EXIT_COLUMNS: set<string> := {"exit_long", "exit_short"}

  predicate Holds(e: Expr, cols: Columns, i: nat) { At(e, cols, i) == Flag(true) }

  // ---------- Running a chain ----------

  lemma {:induction false} ExecSplits(c: Columns, rows: nat, p: seq<Stmt>, q: seq<Stmt>)
    ensures Exec(c, rows, p + q) == Exec(Exec(c, rows, p), rows, q)
  {
    if q == [] {
      assert p + q == p;
    } else {
      ExecSplits(c, rows, p, q[..|q| - 1]);
      assert (p + q)[..|p + q| - 1] == p + q[..|q| - 1];
    }
  }

  /** The cell of one statement's result. */
  function CellAfter(c: Columns, st: Stmt, name: string, i: nat): Cell {
    match st
    case Set(n, e) => if n == name then At(e, c, i) else CellAt(c, name, i)
    case Loc(mask, updates) =>
      if name in updates && At(mask, c, i) == Flag(true) then updates[name] else CellAt(c, name, i)
  }

  lemma CellOfDo(c: Columns, rows: nat, st: Stmt, name: string, i: nat)
    requires i < rows
    ensures CellAt(Do(c, rows, st), name, i) == CellAfter(c, st, name, i)
  {
    hide At;
  }

  lemma DoKeepsOthers(c: Columns, rows: nat, st: Stmt, name: string)
    requires name !in Writes(st)
    ensures ColumnOf(Do(c, rows, st), name) == ColumnOf(c, name)
    ensures name in Do(c, rows, st) <==> name in c
  {
    hide At, CellAt;
  }

  lemma {:induction false} ExecKeepsOthers(c: Columns, rows: nat, p: seq<Stmt>, name: string)
    requires name !in WritesOf(p)
    ensures ColumnOf(Exec(c, rows, p), name) == ColumnOf(c, name)
    ensures name in Exec(c, rows, p) <==> name in c
  {
    if p != [] {
      ExecKeepsOthers(c, rows, p[..|p| - 1], name);
      DoKeepsOthers(Exec(c, rows, p[..|p| - 1]), rows, p[|p| - 1], name);
    }
  }

  /** An expression that does not read what a program writes has the same value before and after it. */
  lemma AtUnaffected(e: Expr, c: Columns, rows: nat, p: seq<Stmt>, i: nat)
    requires Reads(e) !! WritesOf(p)
    ensures At(e, Exec(c, rows, p), i) == At(e, c, i)
  {
    hide At, Exec, WritesOf;
    forall name | name in Reads(e)
      ensures Prefix(ColumnOf(Exec(c, rows, p), name), i + 1) == Prefix(ColumnOf(c, name), i + 1)
    {
      ExecKeepsOthers(c, rows, p, name);
    }
    AtLocal(e, Exec(c, rows, p), c, i);
  }

  lemma {:induction false} WritesOfSplits(p: seq<Stmt>, q: seq<Stmt>)
    ensures WritesOf(p + q) == WritesOf(p) + WritesOf(q)
  {
    if q == [] {
      assert p + q == p;
    } else {
      WritesOfSplits(p, q[..|q| - 1]);
      assert (p + q)[..|p + q| - 1] == p + q[..|q| - 1];
    }
  }

  lemma EntryUnrolled(c: Columns, rows: nat, p: seq<Stmt>)
    requires |p| == 6
    ensures Exec(c, rows, p[..3]) == Do(Do(Do(c, rows, p[0]), rows, p[1]), rows, p[2])
    ensures Exec(c, rows, p[..4]) == Do(Exec(c, rows, p[..3]), rows, p[3])
    ensures Exec(c, rows, p[..5]) == Do(Exec(c, rows, p[..4]), rows, p[4])
    ensures Exec(c, rows, p) == Do(Exec(c, rows, p[..5]), rows, p[5])
    ensures WritesOf(p[..3]) == Writes(p[0]) + Writes(p[1]) + Writes(p[2])
    ensures WritesOf(p[..4]) == WritesOf(p[..3]) + Writes(p[3])
    ensures WritesOf(p) == WritesOf(p[..4]) + Writes(p[4]) + Writes(p[5])
  {
    hide Do, Writes;
    assert p[..1] == [p[0]] && p[..1][..0] == [] && p[..2][..1] == p[..1] && p[..3][..2] == p[..2];
    assert p[..4][..3] == p[..3] && p[..5][..4] == p[..4] && p[..6] == p;
    assert Exec(c, rows, p[..1]) == Do(c, rows, p[0]) && WritesOf(p[..1]) == Writes(p[0]);
    assert Exec(c, rows, p[..2]) == Do(Exec(c, rows, p[..1]), rows, p[1]);
  }

  lemma EntryWrites(long: Expr, short: Expr, longTag: string, shortTag: string)
    ensures var p := Entry(long, short, longTag, shortTag);
            WritesOf(p[..3]) == ENTRY_COLUMNS && WritesOf(p[..4]) == ENTRY_COLUMNS && WritesOf(p) == ENTRY_COLUMNS
  {
    EntryUnrolled(map[], 0, Entry(long, short, longTag, shortTag));
  }

  lemma LongMarked(c: Columns, rows: nat, long: Expr, tag: string, i: nat)
    requires i < rows
    ensures var d := Do(c, rows, Loc(long, map["enter_long" := Num(1.0), "enter_tag" := Text(tag)]));
            && CellAt(d, "enter_long", i) == (if Holds(long, c, i) then Num(1.0) else CellAt(c, "enter_long", i))
            && CellAt(d, "enter_short", i) == CellAt(c, "enter_short", i)
  {
    hide Do, CellAt, At;
    var st := Loc(long, map["enter_long" := Num(1.0), "enter_tag" := Text(tag)]);
    CellOfDo(c, rows, st, "enter_long", i);
    CellOfDo(c, rows, st, "enter_short", i);
  }

  lemma ShortMarked(c: Columns, rows: nat, short: Expr, tag: string, i: nat)
    requires i < rows
    ensures var d := Do(c, rows, Loc(short, map["enter_short" := Num(1.0), "enter_tag" := Text(tag)]));
            && CellAt(d, "enter_short", i) == (if Holds(short, c, i) then Num(1.0) else CellAt(c, "enter_short", i))
            && CellAt(d, "enter_long", i) == CellAt(c, "enter_long", i)
  {
    hide Do, CellAt, At;
    var st := Loc(short, map["enter_short" := Num(1.0), "enter_tag" := Text(tag)]);
    CellOfDo(c, rows, st, "enter_long", i);
    CellOfDo(c, rows, st, "enter_short", i);
  }

  lemma ClashReset(c: Columns, rows: nat, i: nat)
    requires i < rows
    ensures var zeros := map["enter_long" := Num(0.0), "enter_short" := Num(0.0), "enter_tag" := Text("")];
            var d := Do(c, rows, Loc(BothSides(), zeros));
            && (IsOne(d, "enter_long", i) <==> IsOne(c, "enter_long", i) && !IsOne(c, "enter_short", i))
            && (IsOne(d, "enter_short", i) <==> IsOne(c, "enter_short", i) && !IsOne(c, "enter_long", i))
  {
    ClashAt(c, i);
    hide Do, CellAt, At;
    var st := Loc(BothSides(), map["enter_long" := Num(0.0), "enter_short" := Num(0.0), "enter_tag" := Text("")]);
    CellOfDo(c, rows, st, "enter_long", i);
    CellOfDo(c, rows, st, "enter_short", i);
  }

  /** The entry flags of row i: set where the one condition holds and the other does not. */
  lemma EntryFlags(c: Columns, rows: nat, long: Expr, short: Expr, longTag: string, shortTag: string, i: nat)
    requires i < rows && (Reads(long) + Reads(short)) !! ENTRY_COLUMNS
    ensures var e := Exec(c, rows, Entry(long, short, longTag, shortTag));
            && (IsOne(e, "enter_long", i) <==> Holds(long, c, i) && !Holds(short, c, i))
            && (IsOne(e, "enter_short", i) <==> Holds(short, c, i) && !Holds(long, c, i))
  {
    hide Do, CellAt, At;
    var p := Entry(long, short, longTag, shortTag);
    EntryUnrolled(c, rows, p);
    EntryWrites(long, short, longTag, shortTag);
    hide Exec, WritesOf;
    var c3, c4, c5 := Exec(c, rows, p[..3]), Exec(c, rows, p[..4]), Exec(c, rows, p[..5]);
    ZeroFlags(c, Do(c, rows, p[0]), Do(Do(c, rows, p[0]), rows, p[1]), c3, rows, i);
    AtUnaffected(long, c, rows, p[..3], i);
    AtUnaffected(short, c, rows, p[..4], i);
    LongMarked(c3, rows, long, longTag, i);
    ShortMarked(c4, rows, short, shortTag, i);
    ClashReset(c5, rows, i);
  }

  lemma ZeroFlags(c: Columns, c1: Columns, c2: Columns, c3: Columns, rows: nat, i: nat)
    requires i < rows
    requires c1 == Do(c, rows, Set("enter_long", ZERO)) && c2 == Do(c1, rows, Set("enter_short", ZERO))
    requires c3 == Do(c2, rows, Set("enter_tag", Lit(Text(""))))
    ensures CellAt(c3, "enter_long", i) == Num(0.0) && CellAt(c3, "enter_short", i) == Num(0.0)
  {
    hide Do, CellAt;
    CellOfDo(c, rows, Set("enter_long", ZERO), "enter_long", i);
    CellOfDo(c1, rows, Set("enter_short", ZERO), "enter_long", i);
    CellOfDo(c1, rows, Set("enter_short", ZERO), "enter_short", i);
    CellOfDo(c2, rows, Set("enter_tag", Lit(Text(""))), "enter_long", i);
    CellOfDo(c2, rows, Set("enter_tag", Lit(Text(""))), "enter_short", i);
  }

  lemma ClashAt(c: Columns, i: nat)
    ensures Holds(BothSides(), c, i) <==> IsOne(c, "enter_long", i) && IsOne(c, "enter_short", i)
  {
    var l, r := Two(Eq, Col("enter_long"), ONE), Two(Eq, Col("enter_short"), ONE);
    assert At(l, c, i) == Combine(Eq, CellAt(c, "enter_long", i), Num(1.0));
    assert At(r, c, i) == Combine(Eq, CellAt(c, "enter_short", i), Num(1.0));
  }

  lemma ExitUnrolled(c: Columns, rows: nat, exitLong: Expr, exitShort: Expr)
    ensures var p := Exit(exitLong, exitShort);
            && Exec(c, rows, p[..2]) == Do(Do(c, rows, p[0]), rows, p[1])
            && Exec(c, rows, p[..3]) == Do(Exec(c, rows, p[..2]), rows, p[2])
            && Exec(c, rows, p) == Do(Exec(c, rows, p[..3]), rows, p[3])
            && WritesOf(p[..2]) == EXIT_COLUMNS && WritesOf(p[..3]) == EXIT_COLUMNS && WritesOf(p) == EXIT_COLUMNS
  {
    var p := Exit(exitLong, exitShort);
    assert p[..1] == [p[0]] && p[..1][..0] == [] && p[..2][..1] == p[..1];
    assert p[..3][..2] == p[..2] && p[..3] == p[..4][..3];
    assert p[..4] == p;
    assert Exec(c, rows, p[..1]) == Do(c, rows, p[0]) && WritesOf(p[..1]) == {"exit_long"};
    assert WritesOf(p[..2]) == {"exit_long", "exit_short"};
  }

  /** The exit flags of row i. */
  lemma ExitFlags(c: Columns, rows: nat, exitLong: Expr, exitShort: Expr, i: nat)
    requires i < rows && (Reads(exitLong) + Reads(exitShort)) !! EXIT_COLUMNS
    ensures var e := Exec(c, rows, Exit(exitLong, exitShort));
            && (IsOne(e, "exit_long", i) <==> Holds(exitLong, c, i))
            && (IsOne(e, "exit_short", i) <==> Holds(exitShort, c, i))
  {
    var p := Exit(exitLong, exitShort);
    ExitUnrolled(c, rows, exitLong, exitShort);
    var c1 := Do(c, rows, p[0]);
    var c2, c3 := Exec(c, rows, p[..2]), Exec(c, rows, p[..3]);
    AtUnaffected(exitLong, c, rows, p[..2], i);
    AtUnaffected(exitShort, c, rows, p[..3], i);
    hide Exec, WritesOf, Do, CellAt;
    forall name | name in {"exit_long", "exit_short"}
      ensures CellAt(c1, name, i) == CellAfter(c, p[0], name, i)
      ensures CellAt(c2, name, i) == CellAfter(c1, p[1], name, i)
      ensures CellAt(c3, name, i) == CellAfter(c2, p[2], name, i)
      ensures CellAt(Exec(c, rows, p), name, i) == CellAfter(c3, p[3], name, i)
    {
      CellOfDo(c, rows, p[0], name, i);
      CellOfDo(c1, rows, p[1], name, i);
      CellOfDo(c2, rows, p[2], name, i);
      CellOfDo(c3, rows, p[3], name, i);
    }
  }

  /** The direction a chain gives row i, in terms of its four conditions on the frame with the indicators. */
  function ChainDirection(long: bool, short: bool, exitLong: bool, exitShort: bool): Direction {
    DirectionOf(long && !short, exitLong, short && !long, exitShort)
  }

  lemma ChainFlags(bars: Columns, rows: nat, s: Strategy, i: nat)
    requires i < rows
    requires (Reads(s.long) + Reads(s.short)) !! ENTRY_COLUMNS
    requires (Reads(s.exitLong) + Reads(s.exitShort)) !! ENTRY_COLUMNS + EXIT_COLUMNS
    ensures var c := Exec(bars, rows, s.indicators);
            DirectionAt(Exec(bars, rows, Chain(s)), i)
            == ChainDirection(Holds(s.long, c, i), Holds(s.short, c, i),
                              Holds(s.exitLong, c, i), Holds(s.exitShort, c, i))
  {
    hide Exec, Entry, Exit, WritesOf, CellAt, At;
    var entry, exit := Entry(s.long, s.short, s.longTag, s.shortTag), Exit(s.exitLong, s.exitShort);
    var c := Exec(bars, rows, s.indicators);
    var d := Exec(c, rows, entry);
    ExecSplits(bars, rows, s.indicators + entry, exit);
    ExecSplits(bars, rows, s.indicators, entry);
    EntryFlags(c, rows, s.long, s.short, s.longTag, s.shortTag, i);
    EntryWrites(s.long, s.short, s.longTag, s.shortTag);
    ExitFlags(d, rows, s.exitLong, s.exitShort, i);
    ExitUnrolled(d, rows, s.exitLong, s.exitShort);
    AtUnaffected(s.exitLong, c, rows, entry, i);
    AtUnaffected(s.exitShort, c, rows, entry, i);
    OthersSame(d, rows, exit, "enter_long", i);
    OthersSame(d, rows, exit, "enter_short", i);
  }

  lemma OthersSame(c: Columns, rows: nat, p: seq<Stmt>, name: string, i: nat)
    requires name !in WritesOf(p)
    ensures CellAt(Exec(c, rows, p), name, i) == CellAt(c, name, i)
  {
    ExecKeepsOthers(c, rows, p, name);
  }

  // ---------- Indicators are single-assignment ----------

  /** Every statement defines a new column from base columns and columns defined before. */
  predicate SingleAssignment(p: seq<Stmt>, base: set<string>) {
    p == [] || (var st := p[|p| - 1];
                && SingleAssignment(p[..|p| - 1], base)
                && st.Set?
                && Reads(st.e) <= base + WritesOf(p[..|p| - 1])
                && st.name !in base + WritesOf(p[..|p| - 1]))
  }

  lemma {:induction false} SingleMember(p: seq<Stmt>, base: set<string>, j: nat)
    requires SingleAssignment(p, base) && j < |p|
    ensures p[j].Set? && p[j].name in WritesOf(p) && p[j].name !in base && Reads(p[j].e) <= base + WritesOf(p)
  {
    if j < |p| - 1 { SingleMember(p[..|p| - 1], base, j); }
  }

  lemma OneColumnApart(e: Expr, c: Columns, rows: nat, st: Stmt, i: nat)
    requires Reads(e) !! Writes(st)
    ensures At(e, Do(c, rows, st), i) == At(e, c, i)
  {
    hide At, Do, Writes;
    forall name | name in Reads(e)
      ensures Prefix(ColumnOf(Do(c, rows, st), name), i + 1) == Prefix(ColumnOf(c, name), i + 1)
    {
      DoKeepsOthers(c, rows, st, name);
    }
    AtLocal(e, Do(c, rows, st), c, i);
  }

  /** In the finished frame every indicator column equals its own right-hand side. */
  lemma {:induction false} DefiningEquation(bars: Columns, rows: nat, p: seq<Stmt>, base: set<string>, j: nat, i: nat)
    requires SingleAssignment(p, base) && j < |p| && i < rows && p[j].Set?
    ensures CellAt(Exec(bars, rows, p), p[j].name, i) == At(p[j].e, Exec(bars, rows, p), i)
  {
    hide At, CellAt, Do;
    var n := |p| - 1;
    var before := Exec(bars, rows, p[..n]);
    SingleMember(p, base, j);
    CellOfDo(before, rows, p[n], p[j].name, i);
    if j == n {
      OneColumnApart(p[n].e, before, rows, p[n], i);
    } else {
      SingleMember(p[..n], base, j);
      DefiningEquation(bars, rows, p[..n], base, j, i);
      OneColumnApart(p[j].e, before, rows, p[n], i);
    }
  }

  lemma {:induction false} SingleIsScoped(p: seq<Stmt>, base: set<string>)
    requires SingleAssignment(p, base)
    ensures WellScoped(p, base)
  {
    if p != [] { SingleIsScoped(p[..|p| - 1], base); }
  }

  /** The statement defines a fresh column from the given ones. */
  predicate Defines(st: Stmt, names: set<string>) { st.Set? && Reads(st.e) <= names && st.name !in names }

  lemma NothingSingle(base: set<string>)
    ensures SingleAssignment([], base) && WritesOf([]) == {}
  {
  }

  lemma SingleAppend(p: seq<Stmt>, st: Stmt, base: set<string>)
    requires SingleAssignment(p, base) && Defines(st, base + WritesOf(p))
    ensures SingleAssignment(p + [st], base)
    ensures WritesOf(p + [st]) == WritesOf(p) + {st.name}
  {
    assert (p + [st])[..|p|] == p;
  }

  lemma GrownPrefix(p: seq<Stmt>, k: nat, base: set<string>, names: set<string>)
    requires k < |p| && SingleAssignment(p[..k], base) && WritesOf(p[..k]) == names && Defines(p[k], base + names)
    ensures SingleAssignment(p[..k + 1], base) && WritesOf(p[..k + 1]) == names + {p[k].name}
  {
    SingleAppend(p[..k], p[k], base);
    assert p[..k + 1] == p[..k] + [p[k]];
  }

  predicate Independent(p: seq<Stmt>, base: set<string>) {
    && (forall j | 0 <= j < |p| :: p[j].Set? && Reads(p[j].e) <= base && p[j].name !in base)
    && (forall j, k | 0 <= j < k < |p| :: p[j].name != p[k].name)
  }

  /** Definitions of distinct columns from base columns alone. */
  lemma {:induction false} IndependentIsSingle(p: seq<Stmt>, base: set<string>)
    requires Independent(p, base)
    ensures SingleAssignment(p, base)
    ensures forall x :: x in WritesOf(p) <==> exists j | 0 <= j < |p| :: p[j].name == x
  {
    if p != [] {
      var n := |p| - 1;
      IndependentIsSingle(p[..n], base);
      hide SingleAssignment, WritesOf, Reads;
      assert p[n].Set? && Reads(p[n].e) <= base;
      assert p[n].name !in WritesOf(p[..n]);
      SingleAppend(p[..n], p[n], base);
      assert p[..n] + [p[n]] == p;
    }
  }

  lemma BaseCellKept(bars: Columns, rows: nat, p: seq<Stmt>, base: set<string>, name: string, i: nat)
    requires Independent(p, base) && name in base
    ensures CellAt(Exec(bars, rows, p), name, i) == CellAt(bars, name, i)
  {
    hide Exec, WellScoped, Independent, WritesOf;
    IndependentIsSingle(p, base);
    SingleIsScoped(p, base);
    assert p[..|p|] == p;
    ExecKeepsBase(bars, rows, p, |p|, base);
  }

  /** Each of them holds, in the finished frame, the value of its right-hand side on the base columns. */
  lemma IndependentColumn(bars: Columns, rows: nat, p: seq<Stmt>, base: set<string>, j: nat, i: nat)
    requires Independent(p, base) && j < |p| && i < rows
    ensures p[j].Set? && CellAt(Exec(bars, rows, p), p[j].name, i) == At(p[j].e, bars, i)
  {
    hide Exec, WellScoped, WritesOf, At, CellAt;
    IndependentIsSingle(p, base);
    DefiningEquation(bars, rows, p, base, j, i);
    forall name | name in Reads(p[j].e) ensures name !in WritesOf(p) {}
    AtUnaffected(p[j].e, bars, rows, p, i);
  }

  /** A group of statements that need only what is there before the group. */
  lemma {:induction false} ScopedGroup(p: seq<Stmt>, q: seq<Stmt>, base: set<string>)
    requires WellScoped(p, base)
    requires forall st | st in q :: Needs(st) <= base + WritesOf(p) && Writes(st) !! base
    ensures WellScoped(p + q, base)
    ensures WritesOf(p + q) == WritesOf(p) + WritesOf(q)
  {
    WritesOfSplits(p, q);
    if q == [] {
      assert p + q == p;
    } else {
      var n := |q| - 1;
      ScopedGroup(p, q[..n], base);
      assert (p + q)[..|p + q| - 1] == p + q[..n];
    }
  }

  lemma EntryNeeds(long: Expr, short: Expr, longTag: string, shortTag: string)
    ensures var p := Entry(long, short, longTag, shortTag);
            && (forall st | st in p[..3] :: Needs(st) == {} && Writes(st) <= ENTRY_COLUMNS)
            && (forall st | st in p[3..] :: Needs(st) <= Reads(long) + Reads(short) + ENTRY_COLUMNS
                                            && Writes(st) <= ENTRY_COLUMNS)
  {
    var p := Entry(long, short, longTag, shortTag);
    assert p[..3] == [p[0], p[1], p[2]] && p[3..] == [p[3], p[4], p[5]];
    assert Reads(BothSides()) == {"enter_long", "enter_short"} by {
      assert Reads(Two(Eq, Col("enter_long"), ONE)) == {"enter_long"};
      assert Reads(Two(Eq, Col("enter_short"), ONE)) == {"enter_short"};
    }
  }

  lemma ExitNeeds(exitLong: Expr, exitShort: Expr)
    ensures var p := Exit(exitLong, exitShort);
            && (forall st | st in p[..2] :: Needs(st) == {} && Writes(st) <= EXIT_COLUMNS)
            && (forall st | st in p[2..] :: Needs(st) <= Reads(exitLong) + Reads(exitShort) + EXIT_COLUMNS
                                            && Writes(st) <= EXIT_COLUMNS)
  {
    var p := Exit(exitLong, exitShort);
    assert p[..2] == [p[0], p[1]] && p[2..] == [p[2], p[3]];
  }

  /** Two groups in a row: one that sets columns up from nothing, one that works on them. */
  lemma ScopedBlock(p: seq<Stmt>, q: seq<Stmt>, k: nat, needs: set<string>, own: set<string>, base: set<string>)
    requires WellScoped(p, base) && k <= |q| && base !! own && needs <= base + WritesOf(p)
    requires WritesOf(q[..k]) == own
    requires forall st | st in q[..k] :: Needs(st) == {} && Writes(st) <= own
    requires forall st | st in q[k..] :: Needs(st) <= needs + own && Writes(st) <= own
    ensures WellScoped(p + q, base) && WritesOf(p + q) == WritesOf(p) + WritesOf(q)
  {
    hide WellScoped, WritesOf, Needs, Writes;
    ScopedGroup(p, q[..k], base);
    ScopedGroup(p + q[..k], q[k..], base);
    assert p + q[..k] + q[k..] == p + q;
    WritesOfSplits(p, q);
  }

  lemma EntryScoped(p: seq<Stmt>, long: Expr, short: Expr, longTag: string, shortTag: string, base: set<string>)
    requires WellScoped(p, base) && base !! ENTRY_COLUMNS && Reads(long) + Reads(short) <= base + WritesOf(p)
    ensures var q := Entry(long, short, longTag, shortTag);
            WellScoped(p + q, base) && WritesOf(p + q) == WritesOf(p) + ENTRY_COLUMNS
  {
    var q := Entry(long, short, longTag, shortTag);
    EntryWrites(long, short, longTag, shortTag);
    EntryNeeds(long, short, longTag, shortTag);
    assert |q| == 6;
    hide WritesOf, WellScoped, Entry, Reads, Needs, Writes;
    ScopedBlock(p, q, 3, Reads(long) + Reads(short), ENTRY_COLUMNS, base);
  }

  lemma ExitScoped(p: seq<Stmt>, exitLong: Expr, exitShort: Expr, base: set<string>)
    requires WellScoped(p, base) && base !! EXIT_COLUMNS && Reads(exitLong) + Reads(exitShort) <= base + WritesOf(p)
    ensures var q := Exit(exitLong, exitShort);
            WellScoped(p + q, base) && WritesOf(p + q) == WritesOf(p) + EXIT_COLUMNS
  {
    var q := Exit(exitLong, exitShort);
    ExitUnrolled(map[], 0, exitLong, exitShort);
    ExitNeeds(exitLong, exitShort);
    assert |q| == 4;
    hide WritesOf, WellScoped, Exit, Reads, Needs, Writes, Exec;
    ScopedBlock(p, q, 2, Reads(exitLong) + Reads(exitShort), EXIT_COLUMNS, base);
  }

  lemma FlagsAreSignals()
    ensures SIGNAL_COLUMNS <= ENTRY_COLUMNS + EXIT_COLUMNS
  {
  }

  predicate ChainReady(s: Strategy, base: set<string>) {
    && SingleAssignment(s.indicators, base)
    && base !! ENTRY_COLUMNS && base !! EXIT_COLUMNS
    && Reads(s.long) + Reads(s.short) <= base + WritesOf(s.indicators)
    && Reads(s.exitLong) + Reads(s.exitShort) <= base + WritesOf(s.indicators)
  }

  /** A chain on single-assignment indicators is well scoped, and writes all four signal columns itself. */
  lemma ChainScoped(s: Strategy, base: set<string>)
    requires ChainReady(s, base)
    ensures WellScoped(Chain(s), base) && SIGNAL_COLUMNS <= WritesOf(Chain(s))
  {
    hide WritesOf, WellScoped, SingleAssignment, Entry, Exit, Reads;
    SingleIsScoped(s.indicators, base);
    EntryScoped(s.indicators, s.long, s.short, s.longTag, s.shortTag, base);
    ExitScoped(s.indicators + Entry(s.long, s.short, s.longTag, s.shortTag), s.exitLong, s.exitShort, base);
    FlagsAreSignals();
  }

  lemma FlagEndsHold(c: Columns, d: Columns, name: string, i: nat)
    requires DirectionAt(c, i) == Hold && name in SIGNAL_COLUMNS && CellAt(d, name, i) == Num(1.0)
    requires forall other | other in SIGNAL_COLUMNS && other != name :: CellAt(d, other, i) == CellAt(c, other, i)
    ensures DirectionAt(d, i) != Hold
  {
    hide CellAt;
  }

  lemma OtherFlagsSame(bars: Columns, dirty: Columns, rows: nat, p: seq<Stmt>, name: string, other: string, i: nat)
    requires WellScoped(p, OHLCV) && Agree(bars, dirty, OHLCV) && other != name
    requires ColumnOf(dirty, other) == ColumnOf(bars, other) && (other in dirty <==> other in bars)
    ensures CellAt(Exec(dirty, rows, p), other, i) == CellAt(Exec(bars, rows, p), other, i)
  {
    hide Exec, WritesOf, WellScoped;
    if other in WritesOf(p) {
      ExecAgrees(bars, dirty, rows, p, OHLCV);
    } else {
      ExecKeepsOthers(bars, rows, p, other);
      ExecKeepsOthers(dirty, rows, p, other);
    }
  }

  /** Every strategy that leaves a signal column to others is unsafe on a shared frame. Wherever it says hold on a frame
      of its own, it says buy or sell after a strategy that has set that column. */
  lemma StaleColumnLeaks(bars: Columns, rows: nat, p: seq<Stmt>, name: string, i: nat)
    requires WellScoped(p, OHLCV) && name in SIGNAL_COLUMNS && name !in WritesOf(p) && i < rows
    requires DirectionAt(Exec(bars, rows, p), i) == Hold
    ensures var dirty := bars[name := Whole(ONE, bars, rows)];
            Agree(bars, dirty, OHLCV) && DirectionAt(Exec(dirty, rows, p), i) != Hold
  {
    var dirty := bars[name := Whole(ONE, bars, rows)];
    assert name !in OHLCV;
    assert CellAt(dirty, name, i) == Num(1.0);
    hide Exec, WritesOf, WellScoped, CellAt, DirectionAt;
    assert Agree(bars, dirty, OHLCV);
    OthersSame(dirty, rows, p, name, i);
    forall other | other in SIGNAL_COLUMNS && other != name
      ensures CellAt(Exec(dirty, rows, p), other, i) == CellAt(Exec(bars, rows, p), other, i)
    {
      OtherFlagsSame(bars, dirty, rows, p, name, other, i);
    }
    FlagEndsHold(Exec(bars, rows, p), Exec(dirty, rows, p), name, i);
  }
}
