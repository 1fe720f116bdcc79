/** fancyprint/fancytables.py: the column layout, `FancyTable` and `FancyChangeTracker`.

    Cell values are taken as already turned into strings (`str(v)`), except the index
    column, whose `str` of a natural number is modelled. */
module FancyTables {
  import opened Wrappers
  import opened PyStr
  import opened FancyPrint
  import Utils

  /** The `colsizes` argument: one size for every column (`None` or an int), a list
      paired with the names, or any other value. */
  datatype Sizes = Uniform(size: Option<int>) | PerColumn(sizes: seq<int>) | Unsupported

  /** The `align` argument: one mode for every column, or a list of modes. */
  datatype Alignment = Same(mode: string) | Each(modes: seq<string>)

  /** What the constructor derives: column names (with `idx` first when enabled), their
      widths and alignments, the separator and the header line. */
  datatype Layout = Layout(names: seq<string>, sizes: seq<int>, aligns: seq<string>, idx: bool,
                           sep: string, header: string)

  /** The width of a column given one size: `max(len(name), size or 1)`, so `None` and 0
      both mean 1. */
  function ColumnWidth(name: string, size: Option<int>): (w: int)
    ensures w >= |name|
    ensures w >= (if size.None? || size.value == 0 then 1 else size.value)
    ensures w == |name| || w == (if size.None? || size.value == 0 then 1 else size.value)
  {
    Max(|name|, if size.None? || size.value == 0 then 1 else size.value)
  }

  /** The widths of the user's columns; a list is paired with the names by `zip`, so the
      shorter of the two decides how many there are. */
  function UserSizes(names: seq<string>, colsizes: Sizes): (r: Result<seq<int>>)
    ensures r.Failure? <==> colsizes.Unsupported?
    ensures r.Failure? ==> r.error == ValueError
    ensures r.Success? ==> |r.value| <= |names| && forall i :: 0 <= i < |r.value| ==> r.value[i] >= |names[i]|
    ensures colsizes.Uniform? ==>
      |r.value| == |names| &&
      forall i :: 0 <= i < |names| ==> r.value[i] == ColumnWidth(names[i], colsizes.size)
    ensures colsizes.PerColumn? ==>
      |r.value| == Min(|names|, |colsizes.sizes|) &&
      forall i :: 0 <= i < |r.value| ==> r.value[i] == Max(|names[i]|, colsizes.sizes[i])
  {
    match colsizes
    case Uniform(size) => Success(seq(|names|, i requires 0 <= i < |names| => ColumnWidth(names[i], size)))
    case PerColumn(sizes) =>
      Success(seq(Min(|names|, |sizes|), i requires 0 <= i < Min(|names|, |sizes|) => Max(|names[i]|, sizes[i])))
    case Unsupported => Failure(ValueError)
  }

  function UserAligns(align: Alignment, n: nat): (r: seq<string>)
    ensures align.Same? ==> |r| == n && forall i :: 0 <= i < n ==> r[i] == align.mode
    ensures align.Each? ==> r == align.modes
  {
    match align
    case Same(mode) => seq(n, _ => mode)
    case Each(modes) => modes
  }

  /** `f" {sep.strip()} "`. */
  function Separator(sep: string): (r: string)
    ensures |r| >= 2 && r[0] == ' ' && r[|r| - 1] == ' ' && r[1..|r| - 1] == Strip(sep)
  {
    " " + Strip(sep) + " "
  }

  /** The header cells: each name centred in its width. */
  function HeaderCells(names: seq<string>, sizes: seq<int>): (r: seq<string>)
    requires |sizes| <= |names|
    requires forall i :: 0 <= i < |sizes| ==> sizes[i] >= |names[i]|
    ensures |r| == |sizes|
    ensures forall i :: 0 <= i < |sizes| ==> r[i] == Center(names[i], sizes[i]) && |r[i]| == sizes[i]
  {
    seq(|sizes|, i requires 0 <= i < |sizes| => Center(names[i], sizes[i]))
  }

  /** A layout as the constructor leaves it: one width per column up to the shorter list,
      every width at least its name's length, and the header built from them. */
  ghost predicate WellFormed(layout: Layout) {
    Sized(layout) && layout.header == Join(layout.sep, HeaderCells(layout.names, layout.sizes))
  }

  /** At most one width per column, each at least the column name's length. */
  ghost predicate Sized(layout: Layout) {
    |layout.sizes| <= |layout.names| &&
    forall i :: 0 <= i < |layout.sizes| ==> layout.sizes[i] >= |layout.names[i]|
  }

  /** The constructor's derivation of the layout. */
  function MakeLayout(colnames: seq<string>, colsizes: Sizes, sep: string, align: Alignment, idx: bool): (r: Result<Layout>)
    ensures r.Failure? <==> colsizes.Unsupported?
    ensures r.Failure? ==> r.error == ValueError
    ensures r.Success? ==> WellFormed(r.value) && r.value.idx == idx && r.value.sep == Separator(sep)
    // without `idx` the user's columns are the layout
    ensures r.Success? && !idx ==>
      r.value.names == colnames && r.value.sizes == UserSizes(colnames, colsizes).value &&
      r.value.aligns == UserAligns(align, |colnames|)
    // with `idx` a right-aligned column "idx" of width 3 comes first; the user's columns
    // follow unchanged
    ensures r.Success? && idx ==>
      r.value.names == ["idx"] + colnames &&
      r.value.sizes == [3] + UserSizes(colnames, colsizes).value &&
      r.value.aligns == ["r"] + UserAligns(align, |colnames|)
  {
    var aligns := UserAligns(align, |colnames|);
    match UserSizes(colnames, colsizes)
    case Failure(e) => Failure(e)
    case Success(sizes) =>
      var names := if idx then ["idx"] + colnames else colnames;
      var widths := if idx then [3] + sizes else sizes;
      var separator := Separator(sep);
      assert forall i :: 0 <= i < |widths| ==> widths[i] >= |names[i]| by {
        if idx {
          assert forall i :: 1 <= i < |widths| ==> widths[i] == sizes[i - 1] && names[i] == colnames[i - 1];
        }
      }
      Success(Layout(names, widths, if idx then ["r"] + aligns else aligns, idx, separator,
                     Join(separator, HeaderCells(names, widths))))
  }

  /** The rule lines under the header and at the foot are as wide as the header. */
  function HeaderLines(layout: Layout): (r: seq<string>)
    ensures |r| == 2 && r[0] == layout.header
    ensures |r[1]| == |layout.header| && forall i :: 0 <= i < |r[1]| ==> r[1][i] == '='
  {
    [layout.header, Repeat('=', |layout.header|)]
  }

  function FooterLines(layout: Layout): (r: seq<string>)
    ensures |r| == 1 && |r[0]| == |layout.header|
    ensures forall i :: 0 <= i < |r[0]| ==> r[0][i] == '-'
  {
    [Repeat('-', |layout.header|)]
  }

  /** `colidxs[c]`: the dictionary comprehension keeps the LAST position of a name. */
  function LastIndexOf(names: seq<string>, c: string): (i: nat)
    requires c in names
    ensures i < |names| && names[i] == c
    ensures forall j :: i < j < |names| ==> names[j] != c
  {
    if names[|names| - 1] == c then |names| - 1 else LastIndexOf(names[..|names| - 1], c)
  }

  /** Distinct names: each one's position is its own. */
  lemma LastIndexOfDistinct(names: seq<string>, k: nat)
    requires k < |names|
    requires forall i, j :: 0 <= i < j < |names| ==> names[i] != names[j]
    ensures LastIndexOf(names, names[k]) == k
  {
  }

  /** One cell: the value aligned in its column's width, then cut to that width. A column
      past the widths or the alignments raises IndexError, a bad mode ValueError. */
  function RenderCell(layout: Layout, c: string, v: string): (r: Result<string>)
    requires Sized(layout) && c in layout.names
    ensures var i := LastIndexOf(layout.names, c);
      r.Success? <==> i < |layout.sizes| && i < |layout.aligns| &&
                      Utils.StrAlign(v, layout.sizes[i], layout.aligns[i]).Success?
    ensures r.Success? ==> |r.value| == layout.sizes[LastIndexOf(layout.names, c)]
    ensures var i := LastIndexOf(layout.names, c);
      r.Failure? ==> r.error == (if i >= |layout.sizes| || i >= |layout.aligns| then IndexError else ValueError)
  {
    var i := LastIndexOf(layout.names, c);
    if i >= |layout.sizes| || i >= |layout.aligns| then Failure(IndexError)
    else
      match Utils.StrAlign(v, layout.sizes[i], layout.aligns[i])
      case Failure(e) => Failure(e)
      case Success(a) => Success(SliceTo(a, layout.sizes[i]))
  }

  /** A value that fits its column is shown whole, at the offset its alignment gives, with
      spaces around it; a longer one is cut to its first `width` characters. */
  lemma CellShowsValue(layout: Layout, c: string, v: string)
    requires Sized(layout) && c in layout.names
    requires RenderCell(layout, c, v).Success?
    ensures var i := LastIndexOf(layout.names, c);
      var w, cell := layout.sizes[i], RenderCell(layout, c, v).value;
      var k := Utils.AlignOffset(v, w, layout.aligns[i]);
      (|v| <= w ==> k + |v| <= w && cell[k..k + |v|] == v &&
                    (forall n :: 0 <= n < k ==> cell[n] == ' ') &&
                    (forall n :: k + |v| <= n < w ==> cell[n] == ' ')) &&
      (|v| > w ==> cell == v[..w])
  {
    var i := LastIndexOf(layout.names, c);
    Utils.StrAlignKeepsText(v, layout.sizes[i], layout.aligns[i]);
  }

  /** The width of the `j`-th column as `print_row` looks it up (through the last
      position of its name), or -1 when that position has no width. */
  function CellWidth(layout: Layout, j: nat): int
    requires j < |layout.names|
  {
    var i := LastIndexOf(layout.names, layout.names[j]);
    if i < |layout.sizes| then layout.sizes[i] else -1
  }

  /** The number of cells in a row: `zip` stops at the shorter of names and values. */
  function CellCount(layout: Layout, vals: seq<string>): nat {
    Min(|layout.names|, |vals|)
  }

  /** The `j`-th cell of a row. */
  function CellAt(layout: Layout, vals: seq<string>, j: nat): Result<string>
    requires Sized(layout) && j < CellCount(layout, vals)
  {
    RenderCell(layout, layout.names[j], vals[j])
  }

  /** The exception of the first cell from `j` on that fails, as the list comprehension
      raises it. */
  function FirstFailure(layout: Layout, vals: seq<string>, j: nat): (r: Option<Exception>)
    requires Sized(layout) && j <= CellCount(layout, vals)
    ensures r.None? <==> forall k :: j <= k < CellCount(layout, vals) ==> CellAt(layout, vals, k).Success?
    decreases CellCount(layout, vals) - j
  {
    if j == CellCount(layout, vals) then None
    else if CellAt(layout, vals, j).Failure? then Some(CellAt(layout, vals, j).error)
    else FirstFailure(layout, vals, j + 1)
  }

  /** The exception is that of the leftmost failing cell from `j` on: every cell before
      it renders. */
  lemma {:induction false} FirstFailureIsFirst(layout: Layout, vals: seq<string>, j: nat) returns (k: nat)
    requires Sized(layout) && j <= CellCount(layout, vals)
    requires FirstFailure(layout, vals, j).Some?
    ensures j <= k < CellCount(layout, vals)
    ensures CellAt(layout, vals, k).Failure?
    ensures FirstFailure(layout, vals, j).value == CellAt(layout, vals, k).error
    ensures forall m :: j <= m < k ==> CellAt(layout, vals, m).Success?
    decreases CellCount(layout, vals) - j
  {
    if CellAt(layout, vals, j).Failure? {
      k := j;
    } else {
      assert FirstFailure(layout, vals, j) == FirstFailure(layout, vals, j + 1);
      k := FirstFailureIsFirst(layout, vals, j + 1);
      forall m | j <= m < k
        ensures CellAt(layout, vals, m).Success?
      {
        if m > j {
          assert j + 1 <= m < k;
        }
      }
    }
  }

  /** The cells of a row, or the exception of the first that fails. */
  function RenderCells(layout: Layout, vals: seq<string>): Result<seq<string>>
    requires Sized(layout)
  {
    match FirstFailure(layout, vals, 0)
    case Some(e) => Failure(e)
    case None =>
      var n := CellCount(layout, vals);
      Success(seq(n, k requires 0 <= k < n => CellAt(layout, vals, k).value))
  }

  /** A row renders exactly when each of its cells does, into one cell per column that
      `zip` reaches, each as wide as its column. */
  lemma RenderCellsSpec(layout: Layout, vals: seq<string>)
    requires Sized(layout)
    ensures var r := RenderCells(layout, vals);
      (r.Success? <==> forall k :: 0 <= k < CellCount(layout, vals) ==> CellAt(layout, vals, k).Success?) &&
      (r.Success? ==> |r.value| == CellCount(layout, vals) &&
                      forall k :: 0 <= k < |r.value| ==> |r.value[k]| == CellWidth(layout, k))
  {
    var r := RenderCells(layout, vals);
    if r.Success? {
      forall k | 0 <= k < |r.value|
        ensures |r.value[k]| == CellWidth(layout, k)
      {
        assert CellAt(layout, vals, k).Success?;
      }
    }
  }

  /** A row: its cells joined by the separator. */
  function RenderRow(layout: Layout, vals: seq<string>): (r: Result<string>)
    requires Sized(layout)
    ensures r.Success? <==> RenderCells(layout, vals).Success?
    ensures r.Failure? ==> r.error == RenderCells(layout, vals).error
    ensures r.Success? ==> r.value == Join(layout.sep, RenderCells(layout, vals).value)
  {
    match RenderCells(layout, vals)
    case Failure(e) => Failure(e)
    case Success(cells) => Success(Join(layout.sep, cells))
  }

  /** Every column that has a width and a valid alignment renders. */
  lemma RenderCellsSucceed(layout: Layout, vals: seq<string>)
    requires Sized(layout)
    requires |layout.sizes| == |layout.names| <= |layout.aligns|
    requires forall i :: 0 <= i < |layout.aligns| ==> layout.aligns[i] in {"l", "r", "c"}
    ensures RenderCells(layout, vals).Success?
  {
    RenderCellsSpec(layout, vals);
  }

  /** With distinct column names, one width per column and valid alignments, a row with
      one value per column is exactly as wide as the header. */
  lemma RowWidthIsTableWidth(layout: Layout, vals: seq<string>)
    requires WellFormed(layout)
    requires forall i, j :: 0 <= i < j < |layout.names| ==> layout.names[i] != layout.names[j]
    requires |layout.sizes| == |layout.names| <= |layout.aligns|
    requires forall i :: 0 <= i < |layout.aligns| ==> layout.aligns[i] in {"l", "r", "c"}
    requires |vals| == |layout.names|
    ensures RenderRow(layout, vals).Success?
    ensures |RenderRow(layout, vals).value| == |layout.header|
  {
    RenderCellsSucceed(layout, vals);
    RenderCellsSpec(layout, vals);
    var cells := RenderCells(layout, vals).value;
    var heads := HeaderCells(layout.names, layout.sizes);
    forall k | 0 <= k < |cells|
      ensures |cells[k]| == |heads[k]|
    {
      LastIndexOfDistinct(layout.names, k);
    }
    JoinLengthsAgree(layout.sep, cells, heads);
  }

  /** The three fields the table methods change. */
  datatype TableState = TableState(needsHeader: bool, needsFooter: bool, currentIdx: nat)

  /** The result of one table call: new fields, added log entries, returned or raised. */
  datatype TableStep = TableStep(state: TableState, emitted: seq<string>, status: Status)

  /** Where `print_fn` sends a line: the builtin `print` (`None`), or the `print` of a
      context in the given state. */
  predicate PrinterOk(p: Option<ChunkState>) {
    p.Some? ==> Coherent(p.value)
  }

  /** What `print_fn` leaves in the log for `lines` in turn, and whether one raised: the
      builtin prints everything; a context prints continuation lines, or raises at the
      first line when closed. */
  function Emit(env: Env, p: Option<ChunkState>, lines: seq<string>): (r: (seq<string>, Status))
    requires PrinterOk(p)
    ensures p.None? ==> r == (lines, Done)
    ensures r.1.Raised? ==> r == ([], Raised(NoChunk)) && lines != []
    ensures p.Some? && p.value.open ==> r == (ContinuationLines(env, p.value, lines), Done)
    ensures p.Some? && !p.value.open ==> r == (if lines == [] then ([], Done) else ([], Raised(NoChunk)))
  {
    if p.None? then (lines, Done)
    else
      var step := PrintLinesStep(env, p.value, lines);
      (step.emitted, step.status)
  }

  /** `__enter__`: prints the header if it is still pending, and marks it printed. */
  function EnterStep(env: Env, p: Option<ChunkState>, layout: Layout, st: TableState): (r: TableStep)
    requires PrinterOk(p)
    ensures r.state.needsFooter == st.needsFooter && r.state.currentIdx == st.currentIdx
    ensures !st.needsHeader ==> r == TableStep(st, [], Done)
    ensures st.needsHeader ==> (r.state.needsHeader <==> r.status.Raised?)
    ensures st.needsHeader ==> (r.emitted, r.status) == Emit(env, p, HeaderLines(layout))
    ensures st.needsHeader && p.None? ==> r.emitted == HeaderLines(layout) && r.status == Done
  {
    if !st.needsHeader then TableStep(st, [], Done)
    else
      var e := Emit(env, p, HeaderLines(layout));
      TableStep(if e.1 == Done then st.(needsHeader := false) else st, e.0, e.1)
  }

  /** `__exit__`: prints the footer if it is still pending, and marks it printed. */
  function ExitStep(env: Env, p: Option<ChunkState>, layout: Layout, st: TableState): (r: TableStep)
    requires PrinterOk(p)
    ensures r.state.needsHeader == st.needsHeader && r.state.currentIdx == st.currentIdx
    ensures !st.needsFooter ==> r == TableStep(st, [], Done)
    ensures st.needsFooter ==> (r.state.needsFooter <==> r.status.Raised?)
    ensures st.needsFooter ==> (r.emitted, r.status) == Emit(env, p, FooterLines(layout))
    ensures st.needsFooter && p.None? ==> r.emitted == FooterLines(layout) && r.status == Done
  {
    if !st.needsFooter then TableStep(st, [], Done)
    else
      var e := Emit(env, p, FooterLines(layout));
      TableStep(if e.1 == Done then st.(needsFooter := false) else st, e.0, e.1)
  }

  /** The values of a row as rendered: the current index first when the table has an
      index column. */
  function RowValues(layout: Layout, st: TableState, vals: seq<string>): (r: seq<string>)
    ensures layout.idx ==> r == [NatToString(st.currentIdx)] + vals
    ensures !layout.idx ==> r == vals
  {
    if layout.idx then [NatToString(st.currentIdx)] + vals else vals
  }

  /** The part of `print_row` after the header: render the row (with the index first
      when enabled) and print it; the index advances by one exactly when it was printed. */
  function RowBodyStep(env: Env, p: Option<ChunkState>, layout: Layout, st: TableState, vals: seq<string>): (r: TableStep)
    requires PrinterOk(p) && Sized(layout)
    ensures r.state == st.(currentIdx := st.currentIdx + (if r.status == Done then 1 else 0))
    ensures |r.emitted| <= 1
  {
    match RenderRow(layout, RowValues(layout, st, vals))
    case Failure(e) => TableStep(st, [], Raised(e))
    case Success(row) =>
      var e := Emit(env, p, [row]);
      TableStep(if e.1 == Done then st.(currentIdx := st.currentIdx + 1) else st, e.0, e.1)
  }

  /** A row that cannot render raises its error and prints nothing; one that renders goes
      to the builtin `print` as it is. */
  lemma RowBodyOutcome(env: Env, p: Option<ChunkState>, layout: Layout, st: TableState, vals: seq<string>)
    requires PrinterOk(p) && Sized(layout)
    ensures var r := RowBodyStep(env, p, layout, st, vals);
      var row := RenderRow(layout, RowValues(layout, st, vals));
      (row.Failure? ==> r == TableStep(st, [], Raised(row.error))) &&
      (p.None? && row.Success? ==> r.status == Done && r.emitted == [row.value])
  {
  }

  /** `print_row(*vals)`: the pending header first, exactly as `__enter__` prints it, then
      the row. */
  function PrintRowStep(env: Env, p: Option<ChunkState>, layout: Layout, st: TableState, vals: seq<string>): (r: TableStep)
    requires PrinterOk(p) && Sized(layout)
    ensures r.state.needsFooter == st.needsFooter
    ensures r.state.currentIdx == st.currentIdx + (if r.status == Done then 1 else 0)
    ensures !st.needsHeader ==> !r.state.needsHeader
    ensures r.state.needsHeader ==> r.status.Raised?
  {
    var enter := EnterStep(env, p, layout, st);
    if enter.status.Raised? then enter
    else
      var body := RowBodyStep(env, p, layout, enter.state, vals);
      TableStep(body.state, enter.emitted + body.emitted, body.status)
  }

  /** What one row prints when its cells render: with the builtin `print`, the pending
      header and then the row; through an open context, the same lines as continuation
      lines; through a closed context, nothing, as the first line raises NoChunk. A cell
      that cannot render raises whatever the printer. */
  lemma PrintRowOutcome(env: Env, p: Option<ChunkState>, layout: Layout, st: TableState, vals: seq<string>)
    requires PrinterOk(p) && Sized(layout)
    ensures var r := PrintRowStep(env, p, layout, st, vals);
      var row := RenderRow(layout, RowValues(layout, st, vals));
      (p.None? && row.Success? ==>
         r.status == Done &&
         r.emitted == (if st.needsHeader then HeaderLines(layout) else []) + [row.value]) &&
      (p.Some? && p.value.open && row.Success? ==>
         r.status == Done &&
         r.emitted ==
           (if st.needsHeader then ContinuationLines(env, p.value, HeaderLines(layout)) else []) +
           ContinuationLines(env, p.value, [row.value])) &&
      (p.Some? && !p.value.open && (st.needsHeader || row.Success?) ==>
         r == TableStep(st, [], Raised(NoChunk))) &&
      (row.Failure? ==> r.status.Raised?) &&
      // a row that cannot render raises its cell's error after the pending header is
      // printed and marked done
      (row.Failure? && !(p.Some? && !p.value.open && st.needsHeader) ==>
         r == TableStep(EnterStep(env, p, layout, st).state, EnterStep(env, p, layout, st).emitted, Raised(row.error)))
  {
  }

  /** Printing the first `n` of `rows` one after another, stopping at the first that
      raises. */
  function PrintRowsStep(env: Env, p: Option<ChunkState>, layout: Layout, st: TableState,
                         rows: seq<seq<string>>, n: nat): (r: TableStep)
    requires PrinterOk(p) && Sized(layout) && n <= |rows|
    ensures r.state.needsFooter == st.needsFooter
    ensures r.status == Done ==> r.state.currentIdx == st.currentIdx + n
    ensures r.status == Done && n > 0 ==> !r.state.needsHeader
  {
    if n == 0 then TableStep(st, [], Done)
    else
      var prev := PrintRowsStep(env, p, layout, st, rows, n - 1);
      if prev.status.Raised? then prev
      else
        Continue(prev, PrintRowStep(env, p, layout, prev.state, rows[n - 1]))
  }

  /** The effect of `last` after that of `prev`. */
  function Continue(prev: TableStep, last: TableStep): TableStep {
    TableStep(last.state, prev.emitted + last.emitted, last.status)
  }

  /** One argument of `FancyTable.print`: its `str`, and its elements (already `str`-ed)
      when it is iterable. */
  datatype Arg = Arg(text: string, elements: Option<seq<string>>)

  predicate AllIterable(args: seq<Arg>) {
    forall j :: 0 <= j < |args| ==> args[j].elements.Some?
  }

  /** The length of the shortest iterable, where `zip` stops. */
  function ShortestLength(args: seq<Arg>): (n: nat)
    requires AllIterable(args)
    ensures forall j :: 0 <= j < |args| ==> n <= |args[j].elements.value|
    ensures |args| == 0 ==> n == 0
    ensures |args| > 0 ==> exists j :: 0 <= j < |args| && n == |args[j].elements.value|
  {
    if |args| == 0 then 0
    else if |args| == 1 then |args[0].elements.value|
    else
      var rest := ShortestLength(args[1..]);
      assert forall j :: 1 <= j < |args| ==> args[j] == args[1..][j - 1];
      Min(|args[0].elements.value|, rest)
  }

  /** The rows `FancyTable.print(*args)` prints: if every argument is iterable they are
      zipped into rows, one element from each; otherwise all arguments form one row. */
  function ArgRows(args: seq<Arg>): (rows: seq<seq<string>>)
    ensures AllIterable(args) ==>
      |rows| == ShortestLength(args) &&
      forall k :: 0 <= k < |rows| ==>
        |rows[k]| == |args| &&
        forall j :: 0 <= j < |args| ==> rows[k][j] == args[j].elements.value[k]
    ensures !AllIterable(args) ==>
      |rows| == 1 && |rows[0]| == |args| && forall j :: 0 <= j < |args| ==> rows[0][j] == args[j].text
  {
    if AllIterable(args) then
      var n := ShortestLength(args);
      seq(n, k requires 0 <= k < n =>
        seq(|args|, j requires 0 <= j < |args| => args[j].elements.value[k]))
    else
      [seq(|args|, j requires 0 <= j < |args| => args[j].text)]
  }

  /** The table's public calls, for reasoning about a whole session with one table. Each
      call carries the state of the printer at that moment, since a context's chunk can
      open and close between calls. */
  datatype TableOp =
    | EnterOp(p: Option<ChunkState>)
    | ExitOp(p: Option<ChunkState>)
    | HeaderOp(p: Option<ChunkState>)
    | FooterOp(p: Option<ChunkState>)
    | RowOp(p: Option<ChunkState>, vals: seq<string>)

  predicate PrintersOk(ops: seq<TableOp>) {
    forall i :: 0 <= i < |ops| ==> PrinterOk(ops[i].p)
  }

  function OpStep(env: Env, layout: Layout, st: TableState, op: TableOp): (r: TableStep)
    requires PrinterOk(op.p) && Sized(layout)
    ensures !st.needsHeader ==> !r.state.needsHeader
    ensures !st.needsFooter ==> !r.state.needsFooter
    ensures r.state.currentIdx == st.currentIdx + (if op.RowOp? && r.status == Done then 1 else 0)
    // `print_header` and `print_footer` print whenever called and change no field
    ensures op.HeaderOp? ==> r.state == st && (r.emitted, r.status) == Emit(env, op.p, HeaderLines(layout))
    ensures op.FooterOp? ==> r.state == st && (r.emitted, r.status) == Emit(env, op.p, FooterLines(layout))
  {
    match op
    case EnterOp(p) => EnterStep(env, p, layout, st)
    case ExitOp(p) => ExitStep(env, p, layout, st)
    case HeaderOp(p) =>
      var e := Emit(env, p, HeaderLines(layout));
      TableStep(st, e.0, e.1)
    case FooterOp(p) =>
      var e := Emit(env, p, FooterLines(layout));
      TableStep(st, e.0, e.1)
    case RowOp(p, vals) => PrintRowStep(env, p, layout, st, vals)
  }

  /** The outcome of a session: final fields, and how many calls printed the pending
      header, printed the pending footer, and printed a row. */
  datatype Tally = Tally(state: TableState, headers: nat, footers: nat, rows: nat)

  function Run(env: Env, layout: Layout, st: TableState, ops: seq<TableOp>): Tally
    requires PrintersOk(ops) && Sized(layout)
    decreases |ops|
  {
    if ops == [] then Tally(st, 0, 0, 0)
    else
      var step := OpStep(env, layout, st, ops[0]);
      assert forall i :: 0 <= i < |ops| - 1 ==> ops[1..][i] == ops[i + 1];
      var rest := Run(env, layout, step.state, ops[1..]);
      Tally(rest.state,
            rest.headers + (if st.needsHeader && !step.state.needsHeader then 1 else 0),
            rest.footers + (if st.needsFooter && !step.state.needsFooter then 1 else 0),
            rest.rows + (if ops[0].RowOp? && step.status == Done then 1 else 0))
  }

  /** Over any sequence of `__enter__`, `__exit__`, `print_header`, `print_footer` and
      `print_row` calls, whatever the printer's state at each call, the pending header and
      the pending footer are each printed at most once, and only if they were pending;
      the index grows by one per printed row. */
  lemma {:induction false} HeaderAndFooterAtMostOnce(env: Env, layout: Layout, st: TableState, ops: seq<TableOp>)
    requires PrintersOk(ops) && Sized(layout)
    decreases |ops|
    ensures var t := Run(env, layout, st, ops);
      t.headers == (if st.needsHeader && !t.state.needsHeader then 1 else 0) &&
      t.footers == (if st.needsFooter && !t.state.needsFooter then 1 else 0) &&
      t.state.currentIdx == st.currentIdx + t.rows &&
      (!st.needsHeader ==> !t.state.needsHeader) &&
      (!st.needsFooter ==> !t.state.needsFooter)
  {
    if ops != [] {
      var step := OpStep(env, layout, st, ops[0]);
      assert forall i :: 0 <= i < |ops| - 1 ==> ops[1..][i] == ops[i + 1];
      HeaderAndFooterAtMostOnce(env, layout, step.state, ops[1..]);
    }
  }

  /** `FancyTable`. */
  class FancyTable {
    const layout: Layout
    const printer: Option<FancyPrintContext>
    const out: Stdout
    var needsHeader: bool
    var needsFooter: bool
    var currentIdx: nat

    function State(): TableState
      reads this
    {
      TableState(needsHeader, needsFooter, currentIdx)
    }

    /** The printer context, as a set, for frames. */
    function PrinterSet(): set<object>
      reads this
    {
      if printer.Some? then {printer.value} else {}
    }

    /** Where `print_fn` goes, with the printer context's current fields. */
    function Printer(): Option<ChunkState>
      reads this, PrinterSet()
    {
      if printer.Some? then Some(printer.value.State()) else None
    }

    ghost predicate Valid()
      reads this, PrinterSet()
    {
      Sized(layout) &&
      (printer.Some? ==> printer.value.out == out && printer.value.Valid())
    }

    constructor (layout: Layout, header: bool, footer: bool, printer: Option<FancyPrintContext>, out: Stdout)
      requires Sized(layout)
      requires printer.Some? ==> printer.value.out == out && printer.value.Valid()
      ensures Valid()
      ensures this.layout == layout && this.printer == printer && this.out == out
      ensures State() == TableState(header, footer, 0)
    {
      this.layout := layout;
      this.printer := printer;
      this.out := out;
      needsHeader := header;
      needsFooter := footer;
      currentIdx := 0;
    }

    /** `FancyTable(colnames, colsizes, sep, align, idx, header, footer, fpcontext)`;
        a failure is the ValueError the constructor raises. */
    static method New(colnames: seq<string>, colsizes: Sizes, sep: string, align: Alignment, idx: bool,
                      header: bool, footer: bool, fpcontext: Option<FancyPrintContext>, out: Stdout)
      returns (r: Result<FancyTable>)
      requires fpcontext.Some? ==> fpcontext.value.out == out && fpcontext.value.Valid()
      ensures MakeLayout(colnames, colsizes, sep, align, idx).Failure? ==>
        r == Failure(MakeLayout(colnames, colsizes, sep, align, idx).error)
      ensures MakeLayout(colnames, colsizes, sep, align, idx).Success? ==>
        r.Success? && fresh(r.value) && r.value.Valid() &&
        r.value.layout == MakeLayout(colnames, colsizes, sep, align, idx).value &&
        r.value.printer == fpcontext && r.value.out == out &&
        r.value.State() == TableState(header, footer, 0)
    {
      var layout := MakeLayout(colnames, colsizes, sep, align, idx);
      if layout.Failure? {
        return Failure(layout.error);
      }
      var t := new FancyTable(layout.value, header, footer, fpcontext, out);
      return Success(t);
    }

    /** Sends `lines` to `print_fn` in order, stopping at the first that raises. */
    method EmitLines(env: Env, lines: seq<string>) returns (s: Status)
      requires Valid()
      modifies out
      ensures var e := Emit(env, Printer(), lines);
        s == e.1 && out.log == old(out.log) + e.0
    {
      if printer.Some? {
        s := PrintLines(printer.value, env, lines);
        return;
      }
      for i := 0 to |lines|
        invariant out.log == old(out.log) + lines[..i]
      {
        out.Print(lines[i]);
        assert lines[..i + 1] == lines[..i] + [lines[i]];
      }
      assert lines[..|lines|] == lines;
      s := Done;
    }

    method PrintHeader(env: Env) returns (s: Status)
      requires Valid()
      modifies out
      ensures var e := Emit(env, Printer(), HeaderLines(layout));
        s == e.1 && out.log == old(out.log) + e.0
    {
      s := EmitLines(env, [layout.header, Repeat('=', |layout.header|)]);
    }

    method PrintFooter(env: Env) returns (s: Status)
      requires Valid()
      modifies out
      ensures var e := Emit(env, Printer(), FooterLines(layout));
        s == e.1 && out.log == old(out.log) + e.0
    {
      s := EmitLines(env, [Repeat('-', |layout.header|)]);
    }

    /** `__enter__`. */
    method Enter(env: Env) returns (s: Status)
      requires Valid()
      modifies this, out
      ensures Valid()
      ensures var step := EnterStep(env, Printer(), layout, old(State()));
        State() == step.state && s == step.status && out.log == old(out.log) + step.emitted
    {
      s := Done;
      if needsHeader {
        s := PrintHeader(env);
        if s == Done {
          needsHeader := false;
        }
      }
    }

    /** `__exit__`. */
    method Exit(env: Env) returns (s: Status)
      requires Valid()
      modifies this, out
      ensures Valid()
      ensures var step := ExitStep(env, Printer(), layout, old(State()));
        State() == step.state && s == step.status && out.log == old(out.log) + step.emitted
    {
      s := Done;
      if needsFooter {
        s := PrintFooter(env);
        if s == Done {
          needsFooter := false;
        }
      }
    }

    /** The part of `print_row` after the header. */
    method RowBody(env: Env, vals: seq<string>) returns (s: Status)
      requires Valid()
      modifies this, out
      ensures Valid()
      ensures var step := RowBodyStep(env, Printer(), layout, old(State()), vals);
        State() == step.state && s == step.status && out.log == old(out.log) + step.emitted
    {
      var row := RenderRow(layout, if layout.idx then [NatToString(currentIdx)] + vals else vals);
      if row.Failure? {
        return Raised(row.error);
      }
      s := PrintRendered(env, row.value);
    }

    /** Prints a rendered row and counts it when the printer did not raise. */
    method PrintRendered(env: Env, line: string) returns (s: Status)
      requires Valid()
      modifies this, out
      ensures Valid()
      ensures var e := Emit(env, Printer(), [line]);
        s == e.1 && out.log == old(out.log) + e.0 &&
        State() == old(State()).(currentIdx := old(currentIdx) + (if s == Done then 1 else 0))
    {
      s := EmitLines(env, [line]);
      if s == Done {
        currentIdx := currentIdx + 1;
      }
    }

    /** `print_row(*vals)`. */
    method PrintRow(env: Env, vals: seq<string>) returns (s: Status)
      requires Valid()
      modifies this, out
      ensures Valid()
      ensures var step := PrintRowStep(env, Printer(), layout, old(State()), vals);
        State() == step.state && s == step.status && out.log == old(out.log) + step.emitted
    {
      s := Enter(env);
      if s.Raised? {
        return;
      }
      ghost var header := EnterStep(env, Printer(), layout, old(State())).emitted;
      ghost var mid := State();
      s := RowBody(env, vals);
      AppendAssoc(old(out.log), header, RowBodyStep(env, Printer(), layout, mid, vals).emitted);
    }

    /** `print(*args)`: one `print_row` per row of `ArgRows(args)`, in order. */
    method Print(env: Env, args: seq<Arg>) returns (s: Status)
      requires Valid()
      modifies this, out
      ensures Valid()
      ensures var rows := ArgRows(args);
        var step := PrintRowsStep(env, Printer(), layout, old(State()), rows, |rows|);
        State() == step.state && s == step.status && out.log == old(out.log) + step.emitted
    {
      s := PrintRows(env, ArgRows(args));
    }

    /** The loop of `print`: `print_row` for each row in turn, stopping at the first
        that raises. */
    method PrintRows(env: Env, rows: seq<seq<string>>) returns (s: Status)
      requires Valid()
      modifies this, out
      ensures Valid()
      ensures var step := PrintRowsStep(env, Printer(), layout, old(State()), rows, |rows|);
        State() == step.state && s == step.status && out.log == old(out.log) + step.emitted
    {
      s := Done;
      ghost var p := Printer();
      ghost var st0 := State();
      ghost var log0 := out.log;
      var i := 0;
      while i < |rows| && s == Done
        invariant 0 <= i <= |rows|
        invariant Valid() && Printer() == p
        invariant RowsPrinted(env, p, st0, log0, rows, i)
        invariant s == PrintRowsStep(env, p, layout, st0, rows, i).status
        invariant s.Raised? ==> 0 < i
      {
        s := PrintNextRow(env, rows, i, p, st0, log0);
        i := i + 1;
      }
      if s.Raised? {
        RowsStopAtFailure(env, p, layout, st0, rows, i);
      }
    }

    /** The fields and the log are those printing the first `n` rows from `st0` leaves. */
    ghost predicate RowsPrinted(env: Env, p: Option<ChunkState>, st0: TableState, log0: seq<string>,
                                rows: seq<seq<string>>, n: nat)
      requires PrinterOk(p) && Sized(layout) && n <= |rows|
      reads this, out
    {
      var step := PrintRowsStep(env, p, layout, st0, rows, n);
      State() == step.state && out.log == log0 + step.emitted
    }

    /** One `print_row` of the loop of `print`: row `i`, after the rows before it. */
    method PrintNextRow(env: Env, rows: seq<seq<string>>, i: nat, ghost p: Option<ChunkState>,
                        ghost st0: TableState, ghost log0: seq<string>) returns (s: Status)
      requires Valid() && Printer() == p && i < |rows|
      requires RowsPrinted(env, p, st0, log0, rows, i)
      requires PrintRowsStep(env, p, layout, st0, rows, i).status == Done
      modifies this, out
      ensures Valid() && Printer() == p
      ensures RowsPrinted(env, p, st0, log0, rows, i + 1)
      ensures s == PrintRowsStep(env, p, layout, st0, rows, i + 1).status
    {
      ghost var acc := PrintRowsStep(env, p, layout, st0, rows, i);
      s := PrintRow(env, rows[i]);
      AppendAssoc(log0, acc.emitted, PrintRowStep(env, p, layout, acc.state, rows[i]).emitted);
    }
  }

  /** Once a row raises, later rows are never printed. */
  lemma {:induction false} RowsStopAtFailure(env: Env, p: Option<ChunkState>, layout: Layout, st: TableState,
                                            rows: seq<seq<string>>, n: nat)
    requires PrinterOk(p) && Sized(layout)
    requires 0 < n <= |rows|
    requires PrintRowsStep(env, p, layout, st, rows, n).status.Raised?
    ensures PrintRowsStep(env, p, layout, st, rows, |rows|) == PrintRowsStep(env, p, layout, st, rows, n)
    decreases |rows| - n
  {
    if n < |rows| {
      RowsStopAtFailure(env, p, layout, st, rows, n + 1);
    }
  }
}
