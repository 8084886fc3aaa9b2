/**
 * The solver boundary (solver/Solver and solver/LpSolveSolver) as an abstract model: the
 * MILP being assembled, the calls the model builder makes on it, and what each call does
 * to it or which exception it raises. The native lp_solve engine is a parameter.
 */
module SolverModel {
  import opened Wrappers
  import opened Exceptions
  import opened Text

  datatype Sense = Eq | Le | Ge

  datatype SolutionStatus = Optimal | Suboptimal | Timeout | Infeasible | Unbounded | Error

  datatype ObjectiveDirection = Min | Max

  /** One linear row: the sum of coeffs[k] * x[k] compared with rhs. */
  datatype Row = Row(coeffs: map<int, real>, sense: Sense, rhs: real)

  /**
   * The solver's model. Columns are numbered 1..ncols; `lower` and `upper` hold the bounds
   * set explicitly (a column without an entry keeps lp_solve's default), `binaries` the
   * columns declared binary.
   */
  datatype Model = Model(
    ncols: nat,
    binaries: set<int>,
    rows: seq<Row>,
    lower: map<int, real>,
    upper: map<int, real>,
    objective: map<int, real>,
    maximize: bool,
    timeout: int,
    gap: real)

  /** lp_solve's default relative MIP gap. */
  const DEFAULT_RELATIVE_GAP: real := 0.000000001

  /** `makeLp(0, 0)` followed by `setObjectiveDirection(MIN)`. */
  const EmptyModel: Model := Model(0, {}, [], map[], map[], map[], false, 0, DEFAULT_RELATIVE_GAP)

  /** The native operations that can refuse a column number. */
  datatype NativeOp = AddConstraint | SetLowerBound | SetUpperBound | SetObjectiveRow

  /** What the native `solve` produced: an exception, or a status code with the solution data. */
  datatype NativeRun =
    | Threw(message: string)
    | Finished(code: int, objectiveValue: real, values: int -> real, elapsed: real)

  /**
   * The foreign lp_solve library: the message of the exception it raises when a native
   * call names a column outside 1..ncols, and the outcome of solving a given model.
   */
  datatype NativeEngine = NativeEngine(rejectText: NativeOp -> string, run: Model -> NativeRun)

  /** The calls the model builder makes after allocating columns. */
  datatype Call =
    | WeightedSum(weights: map<int, real>, sense: Sense, rhs: real)
    | Fix(entries: seq<(int, real)>)
    | LowerBounds(bounds: map<int, real>)
    | UpperBounds(bounds: map<int, real>)
    | SetObjective(coefficients: map<int, real>)
    | Throw(exception: Exception)   // a runtime exception raised between two solver calls

  datatype Failure =
    | IndexOutOfRange(weights: map<int, real>, maxIndex: int)   // the Java-side range check
    | Rejected(op: NativeOp)                                    // a native call refused a column
    | Thrown(exception: Exception)

  predicate ValidColumn(m: Model, k: int) {
    1 <= k <= m.ncols
  }

  predicate ColumnsValid(m: Model, keys: set<int>) {
    forall k :: k in keys ==> ValidColumn(m, k)
  }

  /** `fixVariables(map)`: the row `1.0 * x[k] = value`. */
  function FixRow(entry: (int, real)): Row {
    Row(map[entry.0 := 1.0], Eq, entry.1)
  }

  function FixRows(entries: seq<(int, real)>): (rows: seq<Row>)
    ensures |rows| == |entries|
    ensures forall i :: 0 <= i < |entries| ==> rows[i] == FixRow(entries[i])
    decreases |entries|
  {
    if entries == [] then [] else FixRows(entries[..|entries| - 1]) + [FixRow(entries[|entries| - 1])]
  }

  /** The effect of one call: the new model, or the exception it raises. */
  function Apply(m: Model, c: Call): Result<Model, Failure> {
    match c
    case WeightedSum(w, sense, rhs) =>
      if exists k :: k in w && k > m.ncols then Failure(IndexOutOfRange(w, m.ncols))
      else if !ColumnsValid(m, w.Keys) then Failure(Rejected(AddConstraint))
      else Success(m.(rows := m.rows + [Row(w, sense, rhs)]))
    case Fix(entries) =>
      if forall i :: 0 <= i < |entries| ==> ValidColumn(m, entries[i].0) then Success(m.(rows := m.rows + FixRows(entries)))
      else Failure(Rejected(AddConstraint))
    case LowerBounds(b) =>
      if ColumnsValid(m, b.Keys) then Success(m.(lower := m.lower + b)) else Failure(Rejected(SetLowerBound))
    case UpperBounds(b) =>
      if ColumnsValid(m, b.Keys) then Success(m.(upper := m.upper + b)) else Failure(Rejected(SetUpperBound))
    case SetObjective(cf) =>
      if ColumnsValid(m, cf.Keys) then Success(m.(objective := cf)) else Failure(Rejected(SetObjectiveRow))
    case Throw(e) =>
      Failure(Thrown(e))
  }

  /** A sequence of calls, stopping at the first exception. */
  function ApplyAll(m: Model, calls: seq<Call>): Result<Model, Failure>
    decreases |calls|
  {
    if calls == [] then Success(m)
    else
      match ApplyAll(m, calls[..|calls| - 1])
      case Failure(f) => Failure(f)
      case Success(m') => Apply(m', calls[|calls| - 1])
  }

  /** Continue a partial run with more calls. */
  function Then(r: Result<Model, Failure>, calls: seq<Call>): Result<Model, Failure> {
    match r
    case Failure(f) => Failure(f)
    case Success(m) => ApplyAll(m, calls)
  }

  lemma {:induction false} ApplyAllAppend(m: Model, a: seq<Call>, b: seq<Call>)
    ensures ApplyAll(m, a + b) == Then(ApplyAll(m, a), b)
    decreases |b|
  {
    if b == [] {
      assert a + b == a;
    } else {
      var b' := b[..|b| - 1];
      assert (a + b)[..|a + b| - 1] == a + b';
      assert (a + b)[|a + b| - 1] == b[|b| - 1];
      ApplyAllAppend(m, a, b');
    }
  }

  /** Model building adds rows, bounds and the objective, never columns or solver settings. */
  lemma {:induction false} ApplyAllKeeps(m: Model, calls: seq<Call>)
    requires ApplyAll(m, calls).Success?
    ensures ApplyAll(m, calls).value.ncols == m.ncols
    ensures ApplyAll(m, calls).value.binaries == m.binaries && ApplyAll(m, calls).value.maximize == m.maximize
    ensures ApplyAll(m, calls).value.timeout == m.timeout && ApplyAll(m, calls).value.gap == m.gap
    decreases |calls|
  {
    if calls != [] {
      ApplyAllKeeps(m, calls[..|calls| - 1]);
    }
  }

  /** The exception message for the Java-side range check. */
  function RangeMessage(key: int, maxIndex: int): string {
    "Constraint index: " + IntToString(key) + " out of range: " + IntToString(maxIndex)
  }

  /**
   * `msg` is a message the failure can carry. The range check reports the first offending
   * key in HashMap order, which the model leaves open: any offending key will do.
   */
  predicate Describes(f: Failure, msg: string, engine: NativeEngine) {
    match f
    case IndexOutOfRange(w, n) => exists k :: k in w && k > n && msg == RangeMessage(k, n)
    case Rejected(op) => msg == engine.rejectText(op)
    case Thrown(e) => msg == e.message
  }

  /** Running `calls` from `m0` ended in model `m1` with outcome `o`; after a failure the model is not described. */
  predicate Performed(m0: Model, calls: seq<Call>, m1: Model, o: Outcome<string>, engine: NativeEngine) {
    match ApplyAll(m0, calls)
    case Success(m) => o == Pass && m1 == m
    case Failure(f) => o.Fail? && Describes(f, o.error, engine)
  }

  lemma PerformedOne(m0: Model, c: Call, m1: Model, o: Outcome<string>, engine: NativeEngine)
    ensures Performed(m0, [c], m1, o, engine) <==>
              match Apply(m0, c)
              case Success(m) => o == Pass && m1 == m
              case Failure(f) => o.Fail? && Describes(f, o.error, engine)
  {
    assert [c][..0] == [];
    assert ApplyAll(m0, [c]) == Apply(m0, c);
  }

  lemma PerformedNothing(m0: Model, engine: NativeEngine)
    ensures Performed(m0, [], m0, Pass, engine)
  {
  }

  /** Two runs in sequence, the first one passing. */
  lemma PerformedThen(m0: Model, a: seq<Call>, m1: Model, b: seq<Call>, m2: Model, o: Outcome<string>, engine: NativeEngine)
    requires Performed(m0, a, m1, Pass, engine)
    requires Performed(m1, b, m2, o, engine)
    ensures Performed(m0, a + b, m2, o, engine)
  {
    ApplyAllAppend(m0, a, b);
  }

  /** A run that failed fails the same way whatever calls would have followed. */
  lemma PerformedFailed(m0: Model, a: seq<Call>, m1: Model, b: seq<Call>, m2: Model, msg: string, engine: NativeEngine)
    requires Performed(m0, a, m1, Fail(msg), engine)
    ensures Performed(m0, a + b, m2, Fail(msg), engine)
  {
    ApplyAllAppend(m0, a, b);
  }

  /** The same, for a failure met at a prefix of a longer run. */
  lemma PerformedFailedPrefix(m0: Model, a: seq<Call>, m1: Model, b: seq<Call>, m2: Model, msg: string, engine: NativeEngine)
    requires Performed(m0, a, m1, Fail(msg), engine)
    requires a <= b
    ensures Performed(m0, b, m2, Fail(msg), engine)
  {
    assert b == a + b[|a|..];
    PerformedFailed(m0, a, m1, b[|a|..], m2, msg, engine);
  }

  // ---------------------------------------------------------------------------------------
  // Columns

  /** The number of columns `addVariables(n)` adds: its loop runs zero times for n <= 0. */
  function Width(n: int): nat {
    if n < 0 then 0 else n
  }

  /** The column numbers [first, first + count). */
  function Block(first: int, count: nat): (b: set<int>)
    ensures forall k :: k in b <==> first <= k < first + count
  {
    if count == 0 then {} else Block(first, count - 1) + {first + count - 1}
  }

  /**
   * `addVariables(n)` / `addBinaryVariables(n)`: the index of the first new column, and the
   * model with the new columns (declared binary for the binary variant).
   */
  function AddColumns(m: Model, n: int, binary: bool): (r: (Model, int))
    ensures r.1 == m.ncols + 1
    ensures r.0.ncols == m.ncols + Width(n)
    ensures r.0.binaries == if binary then m.binaries + Block(m.ncols + 1, Width(n)) else m.binaries
    ensures r.0.rows == m.rows && r.0.lower == m.lower && r.0.upper == m.upper && r.0.objective == m.objective
  {
    var first := m.ncols + 1;
    (m.(ncols := m.ncols + Width(n),
        binaries := if binary then m.binaries + Block(first, Width(n)) else m.binaries),
     first)
  }

  /** Two successive allocations give adjacent, disjoint blocks of valid columns. */
  lemma SuccessiveAllocationsDisjoint(m: Model, a: int, binA: bool, b: int, binB: bool)
    ensures var (m1, first1) := AddColumns(m, a, binA);
            var (m2, first2) := AddColumns(m1, b, binB);
            first2 == first1 + Width(a)
            && Block(first1, Width(a)) * Block(first2, Width(b)) == {}
            && (forall k :: k in Block(first1, Width(a)) + Block(first2, Width(b)) ==> ValidColumn(m2, k))
  {
  }

  // ---------------------------------------------------------------------------------------
  // Row helpers of LpSolveSolver

  /** The `toMap(index -> index, 1.0)` of a set of indexes. */
  function UnitWeights(indexes: set<int>): (w: map<int, real>)
    ensures w.Keys == indexes
    ensures forall k :: k in w ==> w[k] == 1.0
  {
    map k | k in indexes :: 1.0
  }

  /** The first element of a list that repeats an earlier one (where `Collectors.toMap` throws). */
  function FirstRepeat(s: seq<int>): (r: Option<int>)
    ensures r.None? <==> forall i, j :: 0 <= i < j < |s| ==> s[i] != s[j]
    ensures r.Some? ==> exists j :: 0 <= j < |s| && s[j] == r.value && s[j] in s[..j]
    decreases |s|
  {
    if s == [] then None
    else
      match FirstRepeat(s[..|s| - 1])
      case Some(k) =>
        assert forall j :: 0 <= j < |s| - 1 ==> s[..|s| - 1][..j] == s[..j];
        Some(k)
      case None =>
        if s[|s| - 1] in s[..|s| - 1] then Some(s[|s| - 1]) else None
  }

  function SetOf(s: seq<int>): (r: set<int>)
    ensures forall k :: k in r <==> k in s
  {
    set k | k in s
  }

  /** `addEqSumConstraint`, `addLeqSumConstraint`: coefficient 1 on each index. */
  function SumCall(indexes: set<int>, sense: Sense, rhs: real): Call {
    WeightedSum(UnitWeights(indexes), sense, rhs)
  }

  /** `addGeqSumConstraint(list, min)`: a repeated index makes `toMap` throw first. */
  function GeqSumCall(indexes: seq<int>, min: real): Call {
    match FirstRepeat(indexes)
    case Some(k) => Throw(DuplicateUnitKey(k))
    case None => WeightedSum(UnitWeights(SetOf(indexes)), Ge, min)
  }

  /** `addImplication(x, b, bigM)`: the row x - bigM * b <= 0. */
  function ImplicationCall(x: int, b: int, bigM: real): Call {
    WeightedSum(map[x := 1.0][b := -1.0 * bigM], Le, 0.0)
  }

  /** `addSumImplication(xs, b, bigM)`: the row sum(xs) - bigM * b <= 0. */
  function SumImplicationCall(xs: seq<int>, b: int, bigM: real): Call {
    match FirstRepeat(xs)
    case Some(k) => Throw(DuplicateUnitKey(k))
    case None => WeightedSum(UnitWeights(SetOf(xs))[b := -1.0 * bigM], Le, 0.0)
  }

  /** `solve()`'s mapping of the native result code. */
  function StatusOfCode(code: int): (s: SolutionStatus)
    ensures s == Optimal <==> code == 0
    ensures s == Suboptimal <==> code == 1
    ensures s == Infeasible <==> code == 2
    ensures s == Unbounded <==> code == 3
    ensures s == Timeout <==> code == 7
    ensures s == Error <==> code !in {0, 1, 2, 3, 7}
  {
    if code == 0 then Optimal
    else if code == 1 then Suboptimal
    else if code == 2 then Infeasible
    else if code == 3 then Unbounded
    else if code == 7 then Timeout
    else Error
  }

  /** `getSolution()`: the primal value of every column, keyed 1..ncols. */
  function SolutionMap(ncols: nat, values: int -> real): (sol: map<int, real>)
    ensures forall k :: k in sol <==> 1 <= k <= ncols
    ensures forall k :: k in sol ==> sol[k] == values(k)
  {
    map k | 1 <= k <= ncols :: values(k)
  }

  // ---------------------------------------------------------------------------------------
  // Meaning of rows: an assignment x satisfies a row when the weighted sum obeys the sense.

  /** The weighted sum of a row over the columns [lo, hi) under assignment x. */
  function Dot(coeffs: map<int, real>, x: int -> real, lo: int, hi: int): real
    decreases hi - lo
  {
    if hi <= lo then 0.0
    else Dot(coeffs, x, lo, hi - 1) + (if hi - 1 in coeffs then coeffs[hi - 1] * x(hi - 1) else 0.0)
  }

  /** Adding a fresh column inside the range adds its term to the sum. */
  lemma {:induction false} DotInsert(coeffs: map<int, real>, x: int -> real, lo: int, hi: int, k: int, c: real)
    requires k !in coeffs && lo <= k < hi
    ensures Dot(coeffs[k := c], x, lo, hi) == c * x(k) + Dot(coeffs, x, lo, hi)
    decreases hi - lo
  {
    if k < hi - 1 {
      DotInsert(coeffs, x, lo, hi - 1, k, c);
    } else {
      DotUnchanged(coeffs[k := c], coeffs, x, lo, hi - 1);
    }
  }

  /** Only the columns of the range matter. */
  lemma {:induction false} DotUnchanged(a: map<int, real>, b: map<int, real>, x: int -> real, lo: int, hi: int)
    requires forall k :: lo <= k < hi ==> (k in a <==> k in b) && (k in a ==> a[k] == b[k])
    ensures Dot(a, x, lo, hi) == Dot(b, x, lo, hi)
    decreases hi - lo
  {
    if lo < hi {
      DotUnchanged(a, b, x, lo, hi - 1);
    }
  }

  /** The sum over the empty row. */
  lemma {:induction false} DotEmpty(x: int -> real, lo: int, hi: int)
    ensures Dot(map[], x, lo, hi) == 0.0
    decreases hi - lo
  {
    if lo < hi {
      DotEmpty(x, lo, hi - 1);
    }
  }

  /** The sum of a row of two distinct columns, term by term. */
  lemma Dot2(k1: int, c1: real, k2: int, c2: real, x: int -> real, lo: int, hi: int)
    requires k1 != k2 && lo <= k1 < hi && lo <= k2 < hi
    ensures Dot(map[k1 := c1][k2 := c2], x, lo, hi) == c2 * x(k2) + (c1 * x(k1) + 0.0)
  {
    DotEmpty(x, lo, hi);
    DotInsert(map[], x, lo, hi, k1, c1);
    DotInsert(map[k1 := c1], x, lo, hi, k2, c2);
  }

  /** The sum of a row of three distinct columns, term by term. */
  lemma Dot3(k1: int, c1: real, k2: int, c2: real, k3: int, c3: real, x: int -> real, lo: int, hi: int)
    requires k1 != k2 && k1 != k3 && k2 != k3 && lo <= k1 < hi && lo <= k2 < hi && lo <= k3 < hi
    ensures Dot(map[k1 := c1][k2 := c2][k3 := c3], x, lo, hi) == c3 * x(k3) + (c2 * x(k2) + (c1 * x(k1) + 0.0))
  {
    Dot2(k1, c1, k2, c2, x, lo, hi);
    DotInsert(map[k1 := c1][k2 := c2], x, lo, hi, k3, c3);
  }

  /** The sum of a row of four distinct columns, term by term. */
  lemma Dot4(k1: int, c1: real, k2: int, c2: real, k3: int, c3: real, k4: int, c4: real, x: int -> real, lo: int, hi: int)
    requires k1 != k2 && k1 != k3 && k1 != k4 && k2 != k3 && k2 != k4 && k3 != k4
    requires lo <= k1 < hi && lo <= k2 < hi && lo <= k3 < hi && lo <= k4 < hi
    ensures Dot(map[k1 := c1][k2 := c2][k3 := c3][k4 := c4], x, lo, hi)
            == c4 * x(k4) + (c3 * x(k3) + (c2 * x(k2) + (c1 * x(k1) + 0.0)))
  {
    Dot3(k1, c1, k2, c2, k3, c3, x, lo, hi);
    DotInsert(map[k1 := c1][k2 := c2][k3 := c3], x, lo, hi, k4, c4);
  }

  /** The sum of the objective or a row depends only on the values of the columns it lists. */
  lemma {:induction false} DotIgnoresUnlisted(coeffs: map<int, real>, v: int -> real, w: int -> real, lo: int, hi: int)
    requires forall k :: k in coeffs ==> v(k) == w(k)
    ensures Dot(coeffs, v, lo, hi) == Dot(coeffs, w, lo, hi)
    decreases hi - lo
  {
    if lo < hi {
      DotIgnoresUnlisted(coeffs, v, w, lo, hi - 1);
    }
  }

  /** A range without listed columns sums to 0. */
  lemma {:induction false} DotNoKeys(coeffs: map<int, real>, x: int -> real, lo: int, hi: int)
    requires forall k :: lo <= k < hi ==> k !in coeffs
    ensures Dot(coeffs, x, lo, hi) == 0.0
    decreases hi - lo
  {
    if lo < hi {
      DotNoKeys(coeffs, x, lo, hi - 1);
    }
  }

  /** The sum over a range is the sum over its two halves. */
  lemma {:induction false} DotSplit(coeffs: map<int, real>, x: int -> real, lo: int, mid: int, hi: int)
    requires lo <= mid <= hi
    ensures Dot(coeffs, x, lo, hi) == Dot(coeffs, x, lo, mid) + Dot(coeffs, x, mid, hi)
    decreases hi - mid
  {
    if mid < hi {
      DotSplit(coeffs, x, lo, mid, hi - 1);
    }
  }

  /** Narrowing the range to an inner one that keeps every listed column keeps the sum. */
  lemma DotWithin(coeffs: map<int, real>, x: int -> real, lo: int, hi: int, inLo: int, inHi: int)
    requires lo <= inLo <= inHi <= hi
    requires forall k :: lo <= k < hi && k in coeffs ==> inLo <= k < inHi
    ensures Dot(coeffs, x, lo, hi) == Dot(coeffs, x, inLo, inHi)
  {
    DotSplit(coeffs, x, lo, inLo, hi);
    DotSplit(coeffs, x, inLo, inHi, hi);
    DotNoKeys(coeffs, x, lo, inLo);
    DotNoKeys(coeffs, x, inHi, hi);
  }

  /** An assignment satisfies a row of a model with `ncols` columns. */
  predicate Satisfies(row: Row, x: int -> real, ncols: nat) {
    var lhs := Dot(row.coeffs, x, 1, ncols + 1);
    match row.sense
    case Eq => lhs == row.rhs
    case Le => lhs <= row.rhs
    case Ge => lhs >= row.rhs
  }

  /** A fix row on a valid column holds exactly when the column takes the fixed value. */
  lemma FixRowMeaning(entry: (int, real), x: int -> real, ncols: nat)
    requires 1 <= entry.0 <= ncols
    ensures Satisfies(FixRow(entry), x, ncols) <==> x(entry.0) == entry.1
  {
    DotEmpty(x, 1, ncols + 1);
    DotInsert(map[], x, 1, ncols + 1, entry.0, 1.0);
  }

  /** The row a weighted-sum call adds. */
  function RowOf(c: Call): Row
    requires c.WeightedSum?
  {
    Row(c.weights, c.sense, c.rhs)
  }

  /** The implication row reads x - bigM * b <= 0 (for two distinct valid columns). */
  lemma ImplicationRowMeaning(x: int, b: int, bigM: real, v: int -> real, ncols: nat)
    requires x != b && 1 <= x <= ncols && 1 <= b <= ncols
    ensures Satisfies(RowOf(ImplicationCall(x, b, bigM)), v, ncols) <==> v(x) - bigM * v(b) <= 0.0
  {
    DotEmpty(v, 1, ncols + 1);
    DotInsert(map[], v, 1, ncols + 1, x, 1.0);
    DotInsert(map[x := 1.0], v, 1, ncols + 1, b, -1.0 * bigM);
  }

  /**
   * `addImplication`: with a positive big M and a binary b, a positive continuous value
   * forces b = 1, while a zero value satisfies the row with b = 0 as well as with b = 1
   * (as long as the value itself stays within big M).
   */
  lemma ImplicationForcesBinary(x: int, b: int, bigM: real, v: int -> real, ncols: nat)
    requires x != b && 1 <= x <= ncols && 1 <= b <= ncols && bigM > 0.0
    requires v(b) == 0.0 || v(b) == 1.0
    ensures Satisfies(RowOf(ImplicationCall(x, b, bigM)), v, ncols) && v(x) > 0.0 ==> v(b) == 1.0
    ensures v(x) == 0.0 ==> Satisfies(RowOf(ImplicationCall(x, b, bigM)), v, ncols)
    ensures v(b) == 1.0 && v(x) <= bigM ==> Satisfies(RowOf(ImplicationCall(x, b, bigM)), v, ncols)
  {
    ImplicationRowMeaning(x, b, bigM, v, ncols);
  }

  /**
   * `addSumImplication`: for distinct valid indexes not containing b, the row reads
   * sum(x) - bigM * b <= 0, so a positive sum forces a binary b to 1 and a zero sum does
   * not force b to 0.
   */
  lemma SumImplicationForcesBinary(xs: seq<int>, b: int, bigM: real, v: int -> real, ncols: nat)
    requires forall i, j :: 0 <= i < j < |xs| ==> xs[i] != xs[j]
    requires b !in xs && 1 <= b <= ncols && bigM > 0.0
    requires v(b) == 0.0 || v(b) == 1.0
    ensures SumImplicationCall(xs, b, bigM).WeightedSum?
    ensures var sum := Dot(UnitWeights(SetOf(xs)), v, 1, ncols + 1);
            && (Satisfies(RowOf(SumImplicationCall(xs, b, bigM)), v, ncols) <==> sum - bigM * v(b) <= 0.0)
            && (Satisfies(RowOf(SumImplicationCall(xs, b, bigM)), v, ncols) && sum > 0.0 ==> v(b) == 1.0)
            && (sum == 0.0 ==> Satisfies(RowOf(SumImplicationCall(xs, b, bigM)), v, ncols))
  {
    DotInsert(UnitWeights(SetOf(xs)), v, 1, ncols + 1, b, -1.0 * bigM);
  }

  /** The objective coefficient of a column: 0 for a column the objective does not list. */
  function Coefficient(m: Model, k: int): real {
    if k in m.objective then m.objective[k] else 0.0
  }

  /**
   * `setObjectiveFunction` replaces the whole objective: a listed column gets its
   * coefficient, every other column 0, and the objective's value under an assignment
   * depends on the listed columns only.
   */
  lemma SetObjectiveReplaces(m: Model, cf: map<int, real>, k: int, v: int -> real, w: int -> real)
    requires Apply(m, SetObjective(cf)).Success?
    requires forall j :: j in cf ==> v(j) == w(j)
    ensures Coefficient(Apply(m, SetObjective(cf)).value, k) == if k in cf then cf[k] else 0.0
    ensures var obj := Apply(m, SetObjective(cf)).value.objective;
            Dot(obj, v, 1, m.ncols + 1) == Dot(obj, w, 1, m.ncols + 1)
  {
    DotIgnoresUnlisted(cf, v, w, 1, m.ncols + 1);
  }
}
