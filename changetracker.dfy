/** `FancyChangeTracker` (fancyprint/fancytables.py): a table with one column for a
    watched value and one per chosen statistic of its history. Each `update` appends the
    value to a bounded history and prints one row. */
module ChangeTracker {
  import opened Wrappers
  import opened FancyPrint
  import opened FancyTables
  import Utils

  /** The `quantities` argument: a single name, or a list of names. */
  datatype Quantities = One(name: string) | Many(names: seq<string>)

  /** A single name stands for the list holding just it. */
  function QuantityList(q: Quantities): seq<string> {
    match q
    case One(name) => [name]
    case Many(names) => names
  }

  /** The keyword arguments the tracker hands on to `FancyTable`. */
  datatype TableOptions = TableOptions(colsizes: Sizes, sep: string, align: Alignment, idx: bool,
                                       header: bool, footer: bool)

  /** `FancyTable`'s own defaults, used when no keyword argument is given. */
  const DefaultOptions := TableOptions(Uniform(None), "|", Same("l"), false, true, true)

  /** Under `FancyTable`'s defaults the table is built, and every row renders. */
  lemma DefaultOptionsRowsRender(names: seq<string>, vals: seq<string>)
    ensures var o := DefaultOptions;
      var l := MakeLayout(names, o.colsizes, o.sep, o.align, o.idx);
      l.Success? && !l.value.idx && RenderRow(l.value, vals).Success?
  {
    var o := DefaultOptions;
    var l := MakeLayout(names, o.colsizes, o.sep, o.align, o.idx).value;
    RenderCellsSucceed(l, vals);
  }

  /** The statistics the names denote, or the AssertionError of the constructor's check
      that each name is one `TrackerFunctions` offers. */
  function ParseQuantities(names: seq<string>): (r: Result<seq<Utils.Quantity>>)
    ensures r.Success? <==> forall i :: 0 <= i < |names| ==> Utils.QuantityNamed(names[i]).Some?
    ensures r.Failure? ==> r.error == AssertionError
    ensures r.Success? ==> |r.value| == |names|
    ensures r.Success? ==> forall i :: 0 <= i < |names| ==> Utils.QuantityName(r.value[i]) == names[i]
  {
    if forall i :: 0 <= i < |names| ==> Utils.QuantityNamed(names[i]).Some? then
      Success(seq(|names|, i requires 0 <= i < |names| => Utils.QuantityNamed(names[i]).value))
    else
      Failure(AssertionError)
  }

  /** Where `x` first occurs in `xs`. */
  function FirstIndex(xs: seq<Utils.Quantity>, x: Utils.Quantity): (k: nat)
    requires x in xs
    ensures k < |xs| && xs[k] == x
    ensures forall i :: 0 <= i < k ==> xs[i] != x
  {
    if xs[0] == x then 0 else 1 + FirstIndex(xs[1..], x)
  }

  /** The keys of a dict built from `xs` in order: each element once, where it first
      occurs. */
  function Dedup(xs: seq<Utils.Quantity>): (r: seq<Utils.Quantity>)
    ensures forall i, j :: 0 <= i < j < |r| ==> r[i] != r[j]
    ensures forall x :: x in r <==> x in xs
    ensures |r| <= |xs|
  {
    if xs == [] then []
    else
      var d := Dedup(xs[..|xs| - 1]);
      if xs[|xs| - 1] in d then d else d + [xs[|xs| - 1]]
  }

  /** The dict keeps its keys in the order in which each was first given. */
  lemma {:induction false} DedupKeepsFirstOrder(xs: seq<Utils.Quantity>)
    ensures forall i, j :: 0 <= i < j < |Dedup(xs)| ==> FirstIndex(xs, Dedup(xs)[i]) < FirstIndex(xs, Dedup(xs)[j])
  {
    if xs != [] {
      var init, last := xs[..|xs| - 1], xs[|xs| - 1];
      DedupKeepsFirstOrder(init);
      var d, r := Dedup(init), Dedup(xs);
      forall i, j | 0 <= i < j < |r|
        ensures FirstIndex(xs, r[i]) < FirstIndex(xs, r[j])
      {
        assert r[i] == d[i] && r[i] in init;
        FirstIndexInPrefix(xs, r[i]);
        if j < |d| {
          assert r[j] == d[j] && r[j] in init;
          FirstIndexInPrefix(xs, r[j]);
          assert FirstIndex(init, d[i]) < FirstIndex(init, d[j]);
        } else {
          assert r[j] == last && last !in init;
          var k := FirstIndex(xs, last);
          assert forall m :: 0 <= m < |init| ==> xs[m] == init[m];
          assert k == |xs| - 1;
          assert FirstIndex(init, r[i]) < |init|;
        }
      }
    }
  }

  /** An element of all but the last of `xs` first occurs there. */
  lemma FirstIndexInPrefix(xs: seq<Utils.Quantity>, y: Utils.Quantity)
    requires xs != [] && y in xs[..|xs| - 1]
    ensures FirstIndex(xs, y) == FirstIndex(xs[..|xs| - 1], y)
  {
    var init := xs[..|xs| - 1];
    var k, k' := FirstIndex(init, y), FirstIndex(xs, y);
    assert xs[k] == init[k] == y;
    assert k' <= k;
    assert init[k'] == xs[k'];
  }

  /** Without repeated names the dict keeps them all, in order. */
  lemma {:induction false} DedupDistinct(xs: seq<Utils.Quantity>)
    requires forall i, j :: 0 <= i < j < |xs| ==> xs[i] != xs[j]
    ensures Dedup(xs) == xs
  {
    if xs != [] {
      var init := xs[..|xs| - 1];
      DedupDistinct(init);
      assert xs[|xs| - 1] !in init;
      assert init + [xs[|xs| - 1]] == xs;
    }
  }

  /** The dict drops nothing only when nothing repeats: with a repeated statistic it is
      strictly shorter than the list. */
  lemma {:induction false} DedupShortensRepeats(xs: seq<Utils.Quantity>)
    requires exists i, j :: 0 <= i < j < |xs| && xs[i] == xs[j]
    ensures |Dedup(xs)| < |xs|
  {
    var init, last := xs[..|xs| - 1], xs[|xs| - 1];
    var i, j :| 0 <= i < j < |xs| && xs[i] == xs[j];
    if j < |xs| - 1 {
      assert init[i] == init[j];
      DedupShortensRepeats(init);
    } else {
      assert last in init by { assert init[i] == last; }
    }
  }

  /** Distinct names name distinct statistics. */
  lemma DistinctNamesDistinctQuantities(names: seq<string>)
    requires ParseQuantities(names).Success?
    requires forall i, j :: 0 <= i < j < |names| ==> names[i] != names[j]
    ensures var qs := ParseQuantities(names).value;
      forall i, j :: 0 <= i < j < |qs| ==> qs[i] != qs[j]
  {
    var qs := ParseQuantities(names).value;
    forall i, j | 0 <= i < j < |qs|
      ensures qs[i] != qs[j]
    {
      assert Utils.QuantityName(qs[i]) == names[i] && Utils.QuantityName(qs[j]) == names[j];
    }
  }

  /** What the history holds: everything for a plain list (`None`), the newest `m` values
      for a `deque` with `maxlen` `m`. */
  function Window(m: Option<nat>, h: seq<real>): (r: seq<real>)
    ensures m.None? ==> r == h
    ensures |r| <= |h|
    ensures m.Some? ==> |r| <= m.value
  {
    if m.None? || |h| <= m.value then h else h[|h| - m.value..]
  }

  /** The window is the newest `min(m, len(h))` values of `h`, or all of them. */
  lemma WindowSpec(m: Option<nat>, h: seq<real>)
    ensures var r := Window(m, h);
      (m.None? ==> r == h) &&
      (m.Some? ==> |r| == PyStr.Min(m.value, |h|)) &&
      r == h[|h| - |r|..]
  {
  }

  /** A window is its own window: the bounded history stays within its bound. */
  lemma WindowIdempotent(m: Option<nat>, h: seq<real>)
    ensures Window(m, Window(m, h)) == Window(m, h)
  {
  }

  /** Appending to a full window drops its oldest value: the result is the window of the
      whole history. */
  lemma AppendToWindow(m: Option<nat>, h: seq<real>, x: real)
    ensures Window(m, Window(m, h) + [x]) == Window(m, h + [x])
  {
    var w := Window(m, h);
    if m.Some? && |h| > m.value {
      var k := m.value;
      assert w == h[|h| - k..];
      if k > 0 {
        assert (w + [x])[1..] == (h + [x])[|h| + 1 - k..];
      } else {
        assert Window(m, w + [x]) == [] == Window(m, h + [x]);
      }
    }
  }

  /** The history after the values `xs` are appended one at a time to `h`. */
  function Observed(m: Option<nat>, h: seq<real>, xs: seq<real>): (r: seq<real>)
    ensures |r| <= |h| + |xs|
    ensures xs != [] && m.Some? ==> |r| <= m.value
    decreases |xs|
  {
    if xs == [] then h else Window(m, Observed(m, h, xs[..|xs| - 1]) + [xs[|xs| - 1]])
  }

  /** However many updates there were, the history is the newest `max_history` of all the
      values seen. */
  lemma {:induction false} ObservedIsWindow(m: Option<nat>, h: seq<real>, xs: seq<real>)
    requires Window(m, h) == h
    ensures Observed(m, h, xs) == Window(m, h + xs)
    decreases |xs|
  {
    if xs != [] {
      var init, last := xs[..|xs| - 1], xs[|xs| - 1];
      ObservedIsWindow(m, h, init);
      AppendToWindow(m, h + init, last);
      assert (h + init) + [last] == h + xs;
    }
  }

  /** With room for two values, the `delta` column after an update shows the step from the
      previous value; a window of one or none never has a `delta`. */
  lemma DeltaAfterUpdate(m: Option<nat>, h: seq<real>, x: real)
    requires Window(m, h) == h && h != []
    ensures m.None? || m.value >= 2 ==> Utils.Delta(Window(m, h + [x])) == Some(x - h[|h| - 1])
    ensures m.Some? && m.value < 2 ==> Utils.Delta(Window(m, h + [x])).None?
  {
    var w := Window(m, h + [x]);
    if m.None? || m.value >= 2 {
      assert w[|w| - 1] == x && w[|w| - 2] == h[|h| - 1];
    }
  }

  /** How a statistic appears in its cell: `str(nan)` for NaN, else the number as `str`
      writes it. */
  function ShowNumber(show: real -> string, v: Option<real>): (r: string)
    ensures v.None? ==> r == "nan"
    ensures v.Some? ==> r == show(v.value)
  {
    if v.None? then "nan" else show(v.value)
  }

  /** The cell of one statistic for the current history. `delta` and `absdelta` are
      modelled; the other statistics come from `other`. */
  function QuantityCell(q: Utils.Quantity, hist: seq<real>, show: real -> string,
                        other: (Utils.Quantity, seq<real>) -> string): (r: string)
    ensures q.DeltaQ? ==> r == ShowNumber(show, Utils.Delta(hist))
    ensures q.AbsDeltaQ? ==> r == ShowNumber(show, Utils.AbsDelta(hist))
    ensures !q.DeltaQ? && !q.AbsDeltaQ? ==> r == other(q, hist)
  {
    match q
    case DeltaQ => ShowNumber(show, Utils.Delta(hist))
    case AbsDeltaQ => ShowNumber(show, Utils.AbsDelta(hist))
    case _ => other(q, hist)
  }

  /** The row an update prints: the value, then each statistic in the order of the
      quantities. */
  function TrackerRow(x: real, fns: seq<Utils.Quantity>, hist: seq<real>, show: real -> string,
                      other: (Utils.Quantity, seq<real>) -> string): (r: seq<string>)
    ensures |r| == 1 + |fns| && r[0] == show(x)
    ensures forall k :: 0 <= k < |fns| ==> r[k + 1] == QuantityCell(fns[k], hist, show, other)
  {
    [show(x)] + seq(|fns|, k requires 0 <= k < |fns| => QuantityCell(fns[k], hist, show, other))
  }

  /** The `delta` cell of an update's row is the step from the previous value, whenever
      the window holds two values. */
  lemma DeltaCellShowsStep(x: real, fns: seq<Utils.Quantity>, m: Option<nat>, h: seq<real>,
                           show: real -> string, other: (Utils.Quantity, seq<real>) -> string, k: nat)
    requires Window(m, h) == h && h != [] && (m.None? || m.value >= 2)
    requires k < |fns| && fns[k] == Utils.DeltaQ
    ensures TrackerRow(x, fns, Window(m, h + [x]), show, other)[k + 1] == show(x - h[|h| - 1])
  {
    DeltaAfterUpdate(m, h, x);
  }

  /** The table's columns are the variable and every name given, but the row holds the
      variable and one value per distinct statistic: the two agree exactly when no name
      repeats, and `zip` drops the surplus columns otherwise. */
  lemma RowFitsColumnsIffDistinct(varName: string, names: seq<string>, x: real, hist: seq<real>,
                                  show: real -> string, other: (Utils.Quantity, seq<real>) -> string)
    requires ParseQuantities(names).Success?
    ensures var row := TrackerRow(x, Dedup(ParseQuantities(names).value), hist, show, other);
      (|row| == |[varName] + names| <==> forall i, j :: 0 <= i < j < |names| ==> names[i] != names[j]) &&
      |row| <= |[varName] + names|
  {
    var qs := ParseQuantities(names).value;
    if forall i, j :: 0 <= i < j < |names| ==> names[i] != names[j] {
      DistinctNamesDistinctQuantities(names);
      DedupDistinct(qs);
    } else {
      var i, j :| 0 <= i < j < |names| && names[i] == names[j];
      assert Utils.QuantityName(qs[i]) == Utils.QuantityName(qs[j]);
      assert qs[i] == qs[j] by { Utils.QuantityNamesRoundTrip(qs[i]); Utils.QuantityNamesRoundTrip(qs[j]); }
      DedupShortensRepeats(qs);
    }
  }

  class FancyChangeTracker {
    const varName: string
    const maxHistory: Option<nat>
    /** The statistics of `fn_dir`, in its key order. */
    const fns: seq<Utils.Quantity>
    const table: FancyTable
    /** `str` of a number. */
    const show: real -> string
    /** The statistics this model leaves to the numeric library. */
    const other: (Utils.Quantity, seq<real>) -> string
    var hist: seq<real>

    ghost predicate Valid()
      reads this, table, table.PrinterSet()
    {
      table.Valid() && Window(maxHistory, hist) == hist
    }

    constructor (varName: string, maxHistory: Option<nat>, fns: seq<Utils.Quantity>, table: FancyTable,
                 show: real -> string, other: (Utils.Quantity, seq<real>) -> string)
      requires table.Valid()
      ensures Valid() && hist == []
      ensures this.varName == varName && this.maxHistory == maxHistory && this.fns == fns
      ensures this.table == table && this.show == show && this.other == other
    {
      this.varName := varName;
      this.maxHistory := maxHistory;
      this.fns := fns;
      this.table := table;
      this.show := show;
      this.other := other;
      hist := [];
    }

    /** `FancyChangeTracker(var_name, quantities, max_history, **formatting_kwargs)`: the
        names are checked first (AssertionError), then `max_history` (a negative `maxlen`
        is a ValueError), then the table is built from the variable name and all the
        names given, repeats included. */
    static method New(varName: string, quantities: Quantities, maxHistory: Option<int>, opts: TableOptions,
                      fpcontext: Option<FancyPrintContext>, out: Stdout,
                      show: real -> string, other: (Utils.Quantity, seq<real>) -> string)
      returns (r: Result<FancyChangeTracker>)
      requires fpcontext.Some? ==> fpcontext.value.out == out && fpcontext.value.Valid()
      ensures var names := QuantityList(quantities);
        var layout := MakeLayout([varName] + names, opts.colsizes, opts.sep, opts.align, opts.idx);
        if ParseQuantities(names).Failure? then r == Failure(AssertionError)
        else if maxHistory.Some? && maxHistory.value < 0 then r == Failure(ValueError)
        else if layout.Failure? then r == Failure(layout.error)
        else
          r.Success? && fresh(r.value) && fresh(r.value.table) && r.value.Valid() &&
          r.value.hist == [] && r.value.fns == Dedup(ParseQuantities(names).value) &&
          r.value.maxHistory == (if maxHistory.None? then None else Some(maxHistory.value as nat)) &&
          r.value.table.layout == layout.value && r.value.table.printer == fpcontext &&
          r.value.table.out == out && r.value.table.State() == TableState(opts.header, opts.footer, 0) &&
          r.value.show == show && r.value.other == other
    {
      var names := QuantityList(quantities);
      var parsed := ParseQuantities(names);
      if parsed.Failure? {
        return Failure(AssertionError);
      }
      if maxHistory.Some? && maxHistory.value < 0 {
        return Failure(ValueError);
      }
      var m: Option<nat> := if maxHistory.None? then None else Some(maxHistory.value as nat);
      var t := FancyTable.New([varName] + names, opts.colsizes, opts.sep, opts.align, opts.idx,
                              opts.header, opts.footer, fpcontext, out);
      if t.Failure? {
        return Failure(t.error);
      }
      var tracker := new FancyChangeTracker(varName, m, Dedup(parsed.value), t.value, show, other);
      return Success(tracker);
    }

    /** `update(var)`: the value joins the history (a full `deque` drops its oldest), then
        the table prints the row of the value and its statistics. The history has grown
        even when printing raises. */
    method Update(env: Env, x: real) returns (s: Status)
      requires Valid()
      modifies this, table, table.out
      ensures Valid()
      ensures hist == Window(maxHistory, old(hist) + [x])
      ensures var step := PrintRowStep(env, table.Printer(), table.layout, old(table.State()),
                                       TrackerRow(x, fns, hist, show, other));
        table.State() == step.state && s == step.status && table.out.log == old(table.out.log) + step.emitted
    {
      Observe(x);
      var row := TrackerRow(x, fns, hist, show, other);
      s := table.PrintRow(env, row);
    }

    /** `self.history.append(var)`: a full `deque` drops its oldest value first. */
    method Observe(x: real)
      requires Window(maxHistory, hist) == hist
      modifies this
      ensures hist == Window(maxHistory, old(hist) + [x])
      ensures Window(maxHistory, hist) == hist
    {
      hist := hist + [x];
      if maxHistory.Some? && |hist| > maxHistory.value {
        hist := hist[1..];
      }
      WindowIdempotent(maxHistory, old(hist) + [x]);
    }
  }
}
