/** Strategies as straight-line programs of column assignments on a shared frame: what one run reads, what it
    leaves behind, and why its row i depends on rows 0..i only. */
module Columns {
  import opened Common
  import opened SignalRows

  // ---------- Cells and columns ----------

  datatype Cell = NaN | Num(x: real) | Flag(b: bool) | Text(s: string) | Stamp(t: int)
  type Column = seq<Cell>
  type Columns = map<string, Column>

  function CellAt(cols: Columns, name: string, i: nat): Cell {
    if name in cols && i < |cols[name]| then cols[name][i] else NaN
  }

  function Prefix(c: Column, k: nat): Column { if k <= |c| then c[..k] else c }

  /** Every column cut to its first k rows. */
  function Take(cols: Columns, k: nat): Columns { map name | name in cols :: Prefix(cols[name], k) }

  predicate Rectangular(cols: Columns, rows: nat) { forall name | name in cols :: |cols[name]| == rows }

  // ---------- Expressions ----------

  datatype Op = Plus | Minus | Gt | Lt | Ge | Le | Eq | And | Or | RowMax | RowMin
  datatype Roll = Highest | Lowest | Total

  /** Right-hand sides of column assignments. `Indicator` stands for a library function (TA-Lib) of some columns
      whose value at a row depends on no later row. */
  datatype Expr =
    | Col(name: string)
    | Lit(cell: Cell)
    | Two(op: Op, l: Expr, r: Expr)
    | Scaled(e: Expr, factor: real)
    | AsInt(e: Expr)
    | Shift(e: Expr, k: nat)
    | Rolling(roll: Roll, e: Expr, window: nat)
    | Where(e: Expr, mask: Expr)
    | Ffill(e: Expr)
    | Indicator(f: seq<Column> -> Cell, names: seq<string>)

  function Larger(x: real, y: real): real { if x < y then y else x }
  function Smaller(x: real, y: real): real { if y < x then y else x }

  /** Comparisons with a missing value are false; arithmetic with one is missing. The row-wise maximum and minimum
      skip a missing value. */
  function Combine(op: Op, a: Cell, b: Cell): Cell {
    var nums := a.Num? && b.Num?;
    match op
    case Plus => if nums then Num(a.x + b.x) else NaN
    case Minus => if nums then Num(a.x - b.x) else NaN
    case Gt => Flag(nums && a.x > b.x)
    case Lt => Flag(nums && a.x < b.x)
    case Ge => Flag(nums && a.x >= b.x)
    case Le => Flag(nums && a.x <= b.x)
    case Eq => Flag(nums && a.x == b.x)
    case And => Flag(a == Flag(true) && b == Flag(true))
    case Or => Flag(a == Flag(true) || b == Flag(true))
    case RowMax => if nums then Num(Larger(a.x, b.x)) else if a.Num? then a else if b.Num? then b else NaN
    case RowMin => if nums then Num(Smaller(a.x, b.x)) else if a.Num? then a else if b.Num? then b else NaN
  }

  /** A window with a missing value has no highest, lowest or total. */
  function Accumulate(roll: Roll, a: Cell, b: Cell): Cell {
    if !a.Num? || !b.Num? then NaN
    else
      match roll
      case Highest => Num(Larger(a.x, b.x))
      case Lowest => Num(Smaller(a.x, b.x))
      case Total => Num(a.x + b.x)
  }

  function ScaleCell(c: Cell, factor: real): Cell { if c.Num? then Num(c.x * factor) else NaN }

  /** The value of an expression at row i. */
  function At(e: Expr, cols: Columns, i: nat): Cell
    decreases e, i, 0
  {
    match e
    case Col(name) => CellAt(cols, name, i)
    case Lit(cell) => cell
    case Two(op, l, r) => Combine(op, At(l, cols, i), At(r, cols, i))
    case Scaled(e', factor) => ScaleCell(At(e', cols, i), factor)
    case AsInt(e') => if At(e', cols, i) == Flag(true) then Num(1.0) else Num(0.0)
    case Shift(e', k) => if i < k then NaN else At(e', cols, i - k)
    case Rolling(roll, e', w) => if w == 0 || i + 1 < w then NaN else RollAt(roll, e', cols, i + 1 - w, i)
    case Where(e', mask) => if At(mask, cols, i) == Flag(true) then At(e', cols, i) else NaN
    case Ffill(e') => FillAt(e', cols, i)
    case Indicator(f, names) => f(seq(|names|, j requires 0 <= j < |names| => Prefix(ColumnOf(cols, names[j]), i + 1)))
  }

  function ColumnOf(cols: Columns, name: string): Column { if name in cols then cols[name] else [] }

  /** The rows lo..i accumulated. */
  function RollAt(roll: Roll, e: Expr, cols: Columns, lo: nat, i: nat): Cell
    requires lo <= i
    decreases e, i, 1
  {
    if lo == i then (if At(e, cols, i).Num? then At(e, cols, i) else NaN)
    else Accumulate(roll, RollAt(roll, e, cols, lo, i - 1), At(e, cols, i))
  }

  /** The last value at or before row i that is not missing. */
  function FillAt(e: Expr, cols: Columns, i: nat): Cell
    decreases e, i, 1
  {
    if At(e, cols, i) != NaN then At(e, cols, i) else if i == 0 then NaN else FillAt(e, cols, i - 1)
  }

  /** The columns an expression reads. */
  function Reads(e: Expr): set<string> {
    match e
    case Col(name) => {name}
    case Lit(_) => {}
    case Two(_, l, r) => Reads(l) + Reads(r)
    case Scaled(e', _) => Reads(e')
    case AsInt(e') => Reads(e')
    case Shift(e', _) => Reads(e')
    case Rolling(_, e', _) => Reads(e')
    case Where(e', mask) => Reads(e') + Reads(mask)
    case Ffill(e') => Reads(e')
    case Indicator(_, names) => set name | name in names
  }

  // ---------- Statements ----------

  /** `frame[name] = e`, or `frame.loc[mask, names] = values`. */
  datatype Stmt = Set(name: string, e: Expr) | Loc(mask: Expr, updates: map<string, Cell>)

  function Writes(st: Stmt): set<string> {
    match st
    case Set(name, _) => {name}
    case Loc(_, updates) => updates.Keys
  }

  /** A masked assignment also needs the columns it writes into. */
  function Needs(st: Stmt): set<string> {
    match st
    case Set(_, e) => Reads(e)
    case Loc(mask, updates) => Reads(mask) + updates.Keys
  }

  function Whole(e: Expr, cols: Columns, rows: nat): Column { seq(rows, i requires 0 <= i < rows => At(e, cols, i)) }

  function Masked(mask: Expr, value: Cell, cols: Columns, rows: nat, name: string): Column {
    seq(rows, i requires 0 <= i < rows => if At(mask, cols, i) == Flag(true) then value else CellAt(cols, name, i))
  }

  function Do(cols: Columns, rows: nat, st: Stmt): Columns {
    match st
    case Set(name, e) => cols[name := Whole(e, cols, rows)]
    case Loc(mask, updates) => cols + map name | name in updates :: Masked(mask, updates[name], cols, rows, name)
  }

  function Exec(cols: Columns, rows: nat, p: seq<Stmt>): Columns {
    if p == [] then cols else Do(Exec(cols, rows, p[..|p| - 1]), rows, p[|p| - 1])
  }

  function WritesOf(p: seq<Stmt>): set<string> {
    if p == [] then {} else WritesOf(p[..|p| - 1]) + Writes(p[|p| - 1])
  }

  /** Every statement reads only base columns and columns written earlier in the same program, and none writes a
      base column. */
  predicate WellScoped(p: seq<Stmt>, base: set<string>) {
    p == [] || (WellScoped(p[..|p| - 1], base)
                && Needs(p[|p| - 1]) <= base + WritesOf(p[..|p| - 1])
                && Writes(p[|p| - 1]) !! base)
  }

  /** The frame that all strategies share; every assignment happens in place. */
  class Frame {
    const rows: nat
    var cols: Columns

    constructor (rows: nat, cols: Columns)
      ensures this.rows == rows && this.cols == cols
    {
      this.rows, this.cols := rows, cols;
    }

    method Assign(st: Stmt)
      modifies this
      ensures cols == Do(old(cols), rows, st)
    {
      match st
      case Set(name, e) =>
        cols := cols[name := Whole(e, cols, rows)];
      case Loc(mask, updates) =>
        cols := cols + map name | name in updates :: Masked(mask, updates[name], cols, rows, name);
    }

    /** Run a strategy's statements in place; `crashAt` is the statement that raises, if one does. What was assigned
        before it stays in the frame. */
    method RunProgram(p: seq<Stmt>, crashAt: Option<nat>) returns (ok: bool)
      modifies this
      ensures ok <==> crashAt.None? || crashAt.value >= |p|
      ensures cols == Exec(old(cols), rows, if ok then p else p[..crashAt.value])
    {
      for i := 0 to |p|
        invariant crashAt.Some? ==> i <= crashAt.value || i == 0
        invariant cols == Exec(old(cols), rows, p[..i])
      {
        if crashAt == Some(i) {
          return false;
        }
        assert p[..i + 1][..i] == p[..i];
        Assign(p[i]);
      }
      assert p[..|p|] == p;
      ok := true;
    }

    /** The seeding variant runs the strategy on a copy: this frame stays as it is. */
    method RunOnCopy(p: seq<Stmt>, crashAt: Option<nat>) returns (ok: bool, copy: Frame)
      ensures fresh(copy) && copy.rows == rows
      ensures ok <==> crashAt.None? || crashAt.value >= |p|
      ensures ok ==> copy.cols == Exec(cols, rows, p)
    {
      copy := new Frame(rows, cols);
      ok := copy.RunProgram(p, crashAt);
    }
  }

  // ---------- Locality: aliasing is harmless ----------

  predicate Agree(c: Columns, d: Columns, names: set<string>) {
    forall name | name in names :: (name in c <==> name in d) && ColumnOf(c, name) == ColumnOf(d, name)
  }

  lemma {:induction false} RollLocal(roll: Roll, e: Expr, c: Columns, d: Columns, lo: nat, i: nat)
    requires lo <= i
    requires forall j | 0 <= j <= i :: At(e, c, j) == At(e, d, j)
    ensures RollAt(roll, e, c, lo, i) == RollAt(roll, e, d, lo, i)
  {
    if lo < i { RollLocal(roll, e, c, d, lo, i - 1); }
  }

  lemma {:induction false} FillLocal(e: Expr, c: Columns, d: Columns, i: nat)
    requires forall j | 0 <= j <= i :: At(e, c, j) == At(e, d, j)
    ensures FillAt(e, c, i) == FillAt(e, d, i)
  {
    if i > 0 { FillLocal(e, c, d, i - 1); }
  }

  /** An expression sees only the first i + 1 rows of the columns it reads. */
  lemma {:induction false} AtLocal(e: Expr, c: Columns, d: Columns, i: nat)
    requires forall name | name in Reads(e) :: Prefix(ColumnOf(c, name), i + 1) == Prefix(ColumnOf(d, name), i + 1)
    ensures At(e, c, i) == At(e, d, i)
    decreases e
  {
    match e
    case Col(name) =>
      assert CellAt(c, name, i) == (var p := Prefix(ColumnOf(c, name), i + 1); if i < |p| then p[i] else NaN);
      assert CellAt(d, name, i) == (var p := Prefix(ColumnOf(d, name), i + 1); if i < |p| then p[i] else NaN);
    case Lit(_) =>
    case Two(_, l, r) => AtLocal(l, c, d, i); AtLocal(r, c, d, i);
    case Scaled(e', _) => AtLocal(e', c, d, i);
    case AsInt(e') => AtLocal(e', c, d, i);
    case Shift(e', k) => if i >= k { EarlierRowsLocal(e', c, d, i - k, i); AtLocal(e', c, d, i - k); }
    case Rolling(roll, e', w) =>
      forall j | 0 <= j <= i ensures At(e', c, j) == At(e', d, j) {
        EarlierRowsLocal(e', c, d, j, i);
        AtLocal(e', c, d, j);
      }
      if w > 0 && i + 1 >= w { RollLocal(roll, e', c, d, i + 1 - w, i); }
    case Where(e', mask) => AtLocal(e', c, d, i); AtLocal(mask, c, d, i);
    case Ffill(e') =>
      forall j | 0 <= j <= i ensures At(e', c, j) == At(e', d, j) {
        EarlierRowsLocal(e', c, d, j, i);
        AtLocal(e', c, d, j);
      }
      FillLocal(e', c, d, i);
    case Indicator(f, names) =>
      assert seq(|names|, j requires 0 <= j < |names| => Prefix(ColumnOf(c, names[j]), i + 1))
          == seq(|names|, j requires 0 <= j < |names| => Prefix(ColumnOf(d, names[j]), i + 1));
  }

  lemma EarlierRowsLocal(e: Expr, c: Columns, d: Columns, j: nat, i: nat)
    requires j <= i
    requires forall name | name in Reads(e) :: Prefix(ColumnOf(c, name), i + 1) == Prefix(ColumnOf(d, name), i + 1)
    ensures forall name | name in Reads(e) :: Prefix(ColumnOf(c, name), j + 1) == Prefix(ColumnOf(d, name), j + 1)
  {
    forall name | name in Reads(e) ensures Prefix(ColumnOf(c, name), j + 1) == Prefix(ColumnOf(d, name), j + 1) {
      var p, q := ColumnOf(c, name), ColumnOf(d, name);
      assert Prefix(p, j + 1) == Prefix(Prefix(p, i + 1), j + 1);
      assert Prefix(q, j + 1) == Prefix(Prefix(q, i + 1), j + 1);
    }
  }

  lemma DoAgrees(c: Columns, d: Columns, rows: nat, st: Stmt, names: set<string>)
    requires Agree(c, d, names) && Needs(st) <= names
    ensures Agree(Do(c, rows, st), Do(d, rows, st), names + Writes(st))
  {
    match st
    case Set(name, e) =>
      forall i | 0 <= i < rows ensures At(e, c, i) == At(e, d, i) { AtLocal(e, c, d, i); }
      assert Whole(e, c, rows) == Whole(e, d, rows);
    case Loc(mask, updates) =>
      forall i | 0 <= i < rows ensures At(mask, c, i) == At(mask, d, i) { AtLocal(mask, c, d, i); }
      forall name | name in updates
        ensures Masked(mask, updates[name], c, rows, name) == Masked(mask, updates[name], d, rows, name)
      {
        assert name in names;
        assert forall i: nat :: CellAt(c, name, i) == CellAt(d, name, i);
      }
  }

  /** Two runs of a program from frames that agree on the base columns agree on everything the program wrote. */
  lemma {:induction false} ExecAgrees(c: Columns, d: Columns, rows: nat, p: seq<Stmt>, base: set<string>)
    requires WellScoped(p, base) && Agree(c, d, base)
    ensures Agree(Exec(c, rows, p), Exec(d, rows, p), base + WritesOf(p))
  {
    if p != [] {
      var n := |p| - 1;
      ExecAgrees(c, d, rows, p[..n], base);
      DoAgrees(Exec(c, rows, p[..n]), Exec(d, rows, p[..n]), rows, p[n], base + WritesOf(p[..n]));
    }
  }

  /** However far a program gets, it leaves the base columns as they were. */
  lemma {:induction false} ExecKeepsBase(c: Columns, rows: nat, p: seq<Stmt>, k: nat, base: set<string>)
    requires WellScoped(p, base) && k <= |p|
    ensures Agree(Exec(c, rows, p[..k]), c, base)
    decreases k
  {
    if k > 0 {
      ScopeOfPrefix(p, k, base);
      ExecKeepsBase(c, rows, p[..k], k - 1, base);
      assert p[..k][..k - 1] == p[..k - 1];
    }
  }

  lemma {:induction false} ScopeOfPrefix(p: seq<Stmt>, k: nat, base: set<string>)
    requires WellScoped(p, base) && k <= |p|
    ensures WellScoped(p[..k], base)
  {
    if k < |p| {
      ScopeOfPrefix(p[..|p| - 1], k, base);
      assert p[..|p| - 1][..k] == p[..k];
    } else {
      assert p[..k] == p;
    }
  }

  // ---------- Causality: live equals history ----------

  lemma PrefixOfTake(cols: Columns, name: string, i: nat, k: nat)
    requires i < k
    ensures Prefix(ColumnOf(Take(cols, k), name), i + 1) == Prefix(ColumnOf(cols, name), i + 1)
  {
  }

  lemma AtOfTake(e: Expr, cols: Columns, i: nat, k: nat)
    requires i < k
    ensures At(e, Take(cols, k), i) == At(e, cols, i)
  {
    forall name | name in Reads(e)
      ensures Prefix(ColumnOf(Take(cols, k), name), i + 1) == Prefix(ColumnOf(cols, name), i + 1)
    {
      PrefixOfTake(cols, name, i, k);
    }
    AtLocal(e, Take(cols, k), cols, i);
  }

  lemma WholeOfTake(e: Expr, cols: Columns, rows: nat, k: nat)
    requires k <= rows
    ensures Whole(e, Take(cols, k), k) == Prefix(Whole(e, cols, rows), k)
  {
    hide At, Take;
    forall i | 0 <= i < k ensures At(e, Take(cols, k), i) == At(e, cols, i) { AtOfTake(e, cols, i, k); }
  }

  lemma MaskedOfTake(mask: Expr, value: Cell, cols: Columns, rows: nat, name: string, k: nat)
    requires k <= rows
    ensures Masked(mask, value, Take(cols, k), k, name) == Prefix(Masked(mask, value, cols, rows, name), k)
  {
    hide At, Take, CellAt;
    forall i | 0 <= i < k
      ensures At(mask, Take(cols, k), i) == At(mask, cols, i) && CellAt(Take(cols, k), name, i) == CellAt(cols, name, i)
    {
      AtOfTake(mask, cols, i, k);
      CellOfTake(cols, name, i, k);
    }
  }

  lemma CellOfTake(cols: Columns, name: string, i: nat, k: nat)
    requires i < k
    ensures CellAt(Take(cols, k), name, i) == CellAt(cols, name, i)
  {
  }

  lemma SetOfTake(cols: Columns, name: string, column: Column, k: nat)
    ensures Take(cols[name := column], k) == Take(cols, k)[name := Prefix(column, k)]
  {
  }

  lemma MergeOfTake(cols: Columns, extra: Columns, k: nat)
    ensures Take(cols + extra, k) == Take(cols, k) + Take(extra, k)
  {
    assert (cols + extra).Keys == cols.Keys + extra.Keys;
  }

  lemma DoOfTake(cols: Columns, rows: nat, st: Stmt, k: nat)
    requires k <= rows
    ensures Do(Take(cols, k), k, st) == Take(Do(cols, rows, st), k)
  {
    hide Whole, Masked, Prefix, At;
    match st
    case Set(name, e) =>
      WholeOfTake(e, cols, rows, k);
      SetOfTake(cols, name, Whole(e, cols, rows), k);
    case Loc(mask, updates) =>
      forall name | name in updates
        ensures Masked(mask, updates[name], Take(cols, k), k, name)
                == Prefix(Masked(mask, updates[name], cols, rows, name), k)
      {
        MaskedOfTake(mask, updates[name], cols, rows, name, k);
      }
      var extra := map name | name in updates :: Masked(mask, updates[name], cols, rows, name);
      MergeOfTake(cols, extra, k);
      assert Take(extra, k) == map name | name in updates :: Masked(mask, updates[name], Take(cols, k), k, name);
  }

  lemma DoRectangular(cols: Columns, rows: nat, st: Stmt)
    requires Rectangular(cols, rows)
    ensures Rectangular(Do(cols, rows, st), rows)
  {
  }

  /** Running a program on the first k rows gives the first k rows of running it on all of them. */
  lemma {:induction false} ExecOfTake(cols: Columns, rows: nat, p: seq<Stmt>, k: nat)
    requires Rectangular(cols, rows) && k <= rows
    ensures Exec(Take(cols, k), k, p) == Take(Exec(cols, rows, p), k)
    ensures Rectangular(Exec(cols, rows, p), rows)
  {
    if p != [] {
      var n := |p| - 1;
      ExecOfTake(cols, rows, p[..n], k);
      DoOfTake(Exec(cols, rows, p[..n]), rows, p[n], k);
      DoRectangular(Exec(cols, rows, p[..n]), rows, p[n]);
    }
  }

  // ---------- Signals of a frame ----------

  const OHLCV: set<string> := {"date", "open", "high", "low", "close", "volume"}
  const SIGNAL_COLUMNS: set<string> := {"enter_long", "exit_long", "enter_short", "exit_short"}

  /** `row.get(name, 0) == 1` */
  predicate IsOne(cols: Columns, name: string, i: nat) { CellAt(cols, name, i) == Num(1.0) }

  function DirectionAt(cols: Columns, i: nat): Direction {
    DirectionOf(IsOne(cols, "enter_long", i), IsOne(cols, "exit_long", i),
                IsOne(cols, "enter_short", i), IsOne(cols, "exit_short", i))
  }

  /** The row that the history extraction sees. */
  function HistoryRow(cols: Columns, i: nat): BarRow {
    BarRow(if CellAt(cols, "date", i).Stamp? then CellAt(cols, "date", i).t else 0,
           if CellAt(cols, "close", i).Num? then CellAt(cols, "close", i).x else 0.0,
           if CellAt(cols, "volume", i).Num? then CellAt(cols, "volume", i).x else 0.0,
           IsOne(cols, "enter_long", i), IsOne(cols, "exit_long", i),
           IsOne(cols, "enter_short", i), IsOne(cols, "exit_short", i),
           if CellAt(cols, "atr", i).Num? then Some(CellAt(cols, "atr", i).x) else None,
           if CellAt(cols, "volume_mean", i).Num? then Some(CellAt(cols, "volume_mean", i).x) else None)
  }

  /** Live equals history: on the first i + 1 bars, the last row of a strategy's frame has the direction, and every
      other field of the extracted row, that the full history has at row i. */
  lemma LiveEqualsHistory(bars: Columns, rows: nat, p: seq<Stmt>, i: nat)
    requires Rectangular(bars, rows) && i < rows
    ensures DirectionAt(Exec(Take(bars, i + 1), i + 1, p), i) == RowDirection(HistoryRow(Exec(bars, rows, p), i))
    ensures HistoryRow(Exec(Take(bars, i + 1), i + 1, p), i) == HistoryRow(Exec(bars, rows, p), i)
  {
    hide Exec, Take, CellAt;
    ExecOfTake(bars, rows, p, i + 1);
    var full := Exec(bars, rows, p);
    forall name ensures CellAt(Take(full, i + 1), name, i) == CellAt(full, name, i) {
      CellOfTake(full, name, i, i + 1);
    }
  }
}
