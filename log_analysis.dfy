/**
 * The per-experiment log analysis both plot scripts share (plot_mamba_exp.py
 * lines 34-189; plot_kan_exp.py lines 66-221 are the same code). A training
 * log is a table of rows. Each plot keeps the rows with EPOCH <= 610, drops
 * the missing values of one metric and pairs those values with frame counts.
 * The stability panel computes coefficients of variation, guarding against
 * a zero mean and capping the advantages CV at 250. The printed summary
 * repeats the CVs without the guard and measures the spread of the last
 * fifth of the rewards.
 *
 * Reading a CSV file is a lookup in a map from path to table (a missing
 * path raises). Standard deviation and mean are parameters, and their
 * result None stands for NaN, which pandas returns for too few values.
 */
module LogAnalysis {
  import opened Wrappers
  import opened Json
  import opened Seqs
  import opened PosixPath

  /** The log columns the scripts read. */
  datatype Column =
    | Epoch                  // EPOCH
    | TotalFrames            // Total Frames
    | RunningAverageRewards  // Running_Average_Rewards
    | VfLossMean             // Training/vf_loss_Mean
    | VfLossStd              // Training/vf_loss_Std
    | AdvsMeanMean           // advs/mean_Mean
    | AdvsMeanStd            // advs/mean_Std

  /** One CSV row; a column absent from `cells` is an empty (NaN) cell. */
  datatype Row = Row(cells: map<Column, real>)

  /** A parsed log: its header and its rows. */
  datatype Frame = Frame(columns: set<Column>, rows: seq<Row>)

  /** A palette entry (tab10 index) or a named matplotlib colour. */
  datatype Color = Palette(index: nat) | Named(colorName: string)

  /** An experiment to plot: label, log path, colour. */
  datatype Experiment = Experiment(name: string, path: string, color: Color)

  /** std and mean of a series; None is NaN. */
  datatype Stats = Stats(std: seq<real> -> Option<real>, mean: seq<real> -> Option<real>)

  const EpochCeiling: real := 610.0
  const CvCap: real := 250.0

  function Cell(row: Row, c: Column): Option<real> {
    if c in row.cells then Some(row.cells[c]) else None
  }

  /** `df['EPOCH'] <= 610`: an empty epoch compares false. */
  predicate WithinCeiling(row: Row) {
    Epoch in row.cells && row.cells[Epoch] <= EpochCeiling
  }

  /** `df[df['EPOCH'] <= 610]`. */
  function FilterEpochs(frame: Frame): (r: Result<Frame, PyError>)
    ensures r.Ok? <==> Epoch in frame.columns
    ensures r.Err? ==> r.error == KeyError
    ensures r.Ok? ==> r.value.columns == frame.columns
    ensures r.Ok? ==> forall row :: row in r.value.rows <==> row in frame.rows && WithinCeiling(row)
  {
    if Epoch !in frame.columns then Err(KeyError)
    else Ok(Frame(frame.columns, Filter(frame.rows, WithinCeiling)))
  }

  /** The filter keeps exactly the rows with EPOCH <= 610, each as often as it occurs,
      in their original order. */
  lemma FilterEpochsExact(frame: Frame)
    requires Epoch in frame.columns
    ensures Subseq(FilterEpochs(frame).value.rows, frame.rows)
    ensures forall row :: multiset(FilterEpochs(frame).value.rows)[row]
              == if WithinCeiling(row) then multiset(frame.rows)[row] else 0
  {
    FilterSubseq(frame.rows, WithinCeiling);
    FilterCounts(frame.rows, WithinCeiling);
  }

  /** In a log whose epochs are all present and never decrease, the filter keeps a
      prefix: the rows before the first epoch above 610. */
  lemma FilterEpochsOfOrderedLog(rows: seq<Row>, k: nat)
    requires forall i :: 0 <= i < |rows| ==> Epoch in rows[i].cells
    requires forall i, j :: 0 <= i < j < |rows| ==> rows[i].cells[Epoch] <= rows[j].cells[Epoch]
    requires k <= |rows|
    requires forall i :: 0 <= i < k ==> rows[i].cells[Epoch] <= EpochCeiling
    requires k < |rows| ==> rows[k].cells[Epoch] > EpochCeiling
    ensures Filter(rows, WithinCeiling) == rows[..k]
  {
    forall i | k <= i < |rows| ensures !WithinCeiling(rows[i]) {
      assert rows[k].cells[Epoch] <= rows[i].cells[Epoch];
    }
    FilterPrefix(rows, WithinCeiling, k);
  }

  /** `df[column]`: KeyError when the log has no such column. */
  function ColumnOf(frame: Frame, c: Column): (r: Result<seq<Option<real>>, PyError>)
    ensures r.Ok? <==> c in frame.columns
    ensures r.Err? ==> r.error == KeyError
    ensures r.Ok? ==> |r.value| == |frame.rows|
  {
    if c !in frame.columns then Err(KeyError)
    else Ok(seq(|frame.rows|, i requires 0 <= i < |frame.rows| => Cell(frame.rows[i], c)))
  }

  /** The selected column holds each row's cell, in row order. */
  lemma ColumnOfCells(frame: Frame, c: Column)
    requires c in frame.columns
    ensures forall i :: 0 <= i < |frame.rows| ==> ColumnOf(frame, c).value[i] == Cell(frame.rows[i], c)
  {
  }

  /** `series.dropna()`: the present values, in order. */
  function DropMissing(col: seq<Option<real>>): (r: seq<real>)
    ensures |r| <= |col|
    ensures forall x :: x in r <==> Some(x) in col
    ensures |r| == |col| <==> forall i :: 0 <= i < |col| ==> col[i].Some?
  {
    if col == [] then []
    else
      var rest := DropMissing(col[1..]);
      assert forall x :: Some(x) in col <==> Some(x) == col[0] || Some(x) in col[1..];
      if col[0].Some? then [col[0].value] + rest else rest
  }

  /** Dropping from a series with no present value leaves nothing. */
  lemma {:induction false} DropMissingAllAbsent(col: seq<Option<real>>)
    requires forall i :: 0 <= i < |col| ==> col[i].None?
    ensures DropMissing(col) == []
  {
    if col != [] {
      assert forall i :: 0 <= i < |col[1..]| ==> col[1..][i] == col[i + 1];
      DropMissingAllAbsent(col[1..]);
    }
  }

  /** Dropping distributes over concatenation. */
  lemma {:induction false} DropMissingAppend(a: seq<Option<real>>, b: seq<Option<real>>)
    ensures DropMissing(a + b) == DropMissing(a) + DropMissing(b)
  {
    if a == [] {
      assert a + b == b;
    } else {
      assert (a + b)[0] == a[0] && (a + b)[1..] == a[1..] + b;
      DropMissingAppend(a[1..], b);
    }
  }

  /** dropna keeps the order: the value of the i-th cell, when present, comes right
      after the values present before it. */
  lemma DropMissingOrder(col: seq<Option<real>>, i: nat)
    requires i < |col| && col[i].Some?
    ensures |DropMissing(col[..i])| < |DropMissing(col)|
    ensures DropMissing(col)[|DropMissing(col[..i])|] == col[i].value
  {
    assert col == col[..i] + ([col[i]] + col[i + 1..]);
    DropMissingAppend(col[..i], [col[i]] + col[i + 1..]);
    assert DropMissing([col[i]] + col[i + 1..]) == [col[i].value] + DropMissing(col[i + 1..]) by {
      assert ([col[i]] + col[i + 1..])[1..] == col[i + 1..];
    }
  }

  /** `samples[:len(values)]`: since dropping never lengthens a series, this is a prefix
      of the frame column with exactly as many entries as there are values. */
  function PlottedSamples(samples: seq<Option<real>>, metric: seq<Option<real>>): (xs: seq<Option<real>>)
    requires |samples| == |metric|
    ensures |xs| == |DropMissing(metric)|
    ensures xs <= samples
  {
    samples[..|DropMissing(metric)|]
  }

  function Zip<A, B>(xs: seq<A>, ys: seq<B>): (r: seq<(A, B)>)
    requires |xs| == |ys|
    ensures |r| == |xs| && forall k :: 0 <= k < |xs| ==> r[k] == (xs[k], ys[k])
  {
    seq(|xs|, k requires 0 <= k < |xs| => (xs[k], ys[k]))
  }

  /** The points `plot(samples[:len(values)], values)` draws, as written: the k-th
      present value against the k-th frame count of the window, whatever row it is in. */
  function AsWrittenPoints(samples: seq<Option<real>>, metric: seq<Option<real>>): (r: seq<(Option<real>, real)>)
    requires |samples| == |metric|
    ensures |r| == |DropMissing(metric)|
    ensures forall k :: 0 <= k < |r| ==> r[k].0 == samples[k]
    ensures forall k :: 0 <= k < |r| ==> r[k].1 == DropMissing(metric)[k]
  {
    Zip(PlottedSamples(samples, metric), DropMissing(metric))
  }

  /** The points as intended: each present value against the frame count of its own row. */
  function AlignedPoints(samples: seq<Option<real>>, metric: seq<Option<real>>): (r: seq<(Option<real>, real)>)
    requires |samples| == |metric|
    ensures |r| == |DropMissing(metric)|
    ensures forall k :: 0 <= k < |r| ==> r[k].1 == DropMissing(metric)[k]
  {
    if samples == [] then []
    else
      var rest := AlignedPoints(samples[1..], metric[1..]);
      if metric[0].Some? then [(samples[0], metric[0].value)] + rest else rest
  }

  /** The log's (frame count, metric) pairs, one per row. */
  function RowPairs(samples: seq<Option<real>>, metric: seq<Option<real>>): seq<(Option<real>, Option<real>)>
    requires |samples| == |metric|
  {
    Zip(samples, metric)
  }

  /** A plotted point read back as a row pair. */
  function AsRows(points: seq<(Option<real>, real)>): seq<(Option<real>, Option<real>)> {
    seq(|points|, k requires 0 <= k < |points| => (points[k].0, Some(points[k].1)))
  }

  /** Every aligned point is one row of the log, no row is used twice, and the points
      keep the rows' order. */
  lemma {:induction false} AlignedPointsAreRows(samples: seq<Option<real>>, metric: seq<Option<real>>)
    requires |samples| == |metric|
    ensures Subseq(AsRows(AlignedPoints(samples, metric)), RowPairs(samples, metric))
  {
    if samples != [] {
      var rest := AlignedPoints(samples[1..], metric[1..]);
      var tailRows := RowPairs(samples[1..], metric[1..]);
      AlignedPointsAreRows(samples[1..], metric[1..]);
      RowPairsCons(samples, metric);
      if metric[0].Some? {
        AsRowsCons((samples[0], metric[0].value), rest);
        SubseqCons((samples[0], metric[0]), AsRows(rest), tailRows);
      } else {
        SubseqDropHead(AsRows(rest), RowPairs(samples, metric));
      }
    }
  }

  lemma AsRowsCons(x: (Option<real>, real), points: seq<(Option<real>, real)>)
    ensures AsRows([x] + points) == [(x.0, Some(x.1))] + AsRows(points)
  {
  }

  lemma RowPairsCons(samples: seq<Option<real>>, metric: seq<Option<real>>)
    requires |samples| == |metric| > 0
    ensures RowPairs(samples, metric) == [(samples[0], metric[0])] + RowPairs(samples[1..], metric[1..])
  {
  }

  /** No present value follows a missing one. */
  predicate MissingOnlyAtEnd(metric: seq<Option<real>>) {
    forall i, j :: 0 <= i < j < |metric| && metric[i].None? ==> metric[j].None?
  }

  /** Without gaps before present values, the as-written pairing is the aligned one. */
  lemma {:induction false} AsWrittenAlignedWithoutGaps(samples: seq<Option<real>>, metric: seq<Option<real>>)
    requires |samples| == |metric|
    requires MissingOnlyAtEnd(metric)
    ensures AsWrittenPoints(samples, metric) == AlignedPoints(samples, metric)
  {
    if samples != [] {
      if metric[0].Some? {
        var tail := metric[1..];
        assert forall i :: 0 <= i < |tail| ==> tail[i] == metric[i + 1];
        AsWrittenAlignedWithoutGaps(samples[1..], tail);
        AsWrittenCons(samples, metric);
      } else {
        assert forall i :: 0 <= i < |metric| ==> metric[i].None?;
        DropMissingAllAbsent(metric);
      }
    }
  }

  /** A present first value is plotted at the first frame count, ahead of the rest. */
  lemma AsWrittenCons(samples: seq<Option<real>>, metric: seq<Option<real>>)
    requires |samples| == |metric| > 0 && metric[0].Some?
    ensures AsWrittenPoints(samples, metric)
         == [(samples[0], metric[0].value)] + AsWrittenPoints(samples[1..], metric[1..])
  {
    var values := DropMissing(metric);
    assert values == [metric[0].value] + DropMissing(metric[1..]);
    PairsCons(AsWrittenPoints(samples, metric), AsWrittenPoints(samples[1..], metric[1..]), samples, values);
  }

  /** A sequence of pairs read off two columns is its first pair followed by the pairs
      read off the columns' tails. */
  lemma PairsCons<A, B>(ps: seq<(A, B)>, tail: seq<(A, B)>, xs: seq<A>, ys: seq<B>)
    requires |ps| == |tail| + 1 == |ys| <= |xs|
    requires forall k :: 0 <= k < |ps| ==> ps[k].0 == xs[k] && ps[k].1 == ys[k]
    requires forall k :: 0 <= k < |tail| ==> tail[k].0 == xs[1..][k] && tail[k].1 == ys[1..][k]
    ensures ps == [(xs[0], ys[0])] + tail
  {
    forall k | 0 < k < |ps| ensures ps[k] == tail[k - 1] {
      assert xs[1..][k - 1] == xs[k] && ys[1..][k - 1] == ys[k];
    }
  }

  /** A log whose first row lacks the metric: the as-written plot puts the second row's
      value at the first row's frame count, a point that is not a row of the log. */
  lemma AsWrittenMisaligns()
    ensures AsWrittenPoints([Some(1.0), Some(2.0)], [None, Some(5.0)]) == [(Some(1.0), 5.0)]
    ensures !Subseq(AsRows(AsWrittenPoints([Some(1.0), Some(2.0)], [None, Some(5.0)])),
                    RowPairs([Some(1.0), Some(2.0)], [None, Some(5.0)]))
    ensures AlignedPoints([Some(1.0), Some(2.0)], [None, Some(5.0)]) == [(Some(2.0), 5.0)]
  {
    var metric: seq<Option<real>> := [None, Some(5.0)];
    assert DropMissing(metric[1..]) == [5.0];
    assert DropMissing(metric) == [5.0];
    var rows := RowPairs([Some(1.0), Some(2.0)], metric);
    var a := AsRows(AsWrittenPoints([Some(1.0), Some(2.0)], metric));
    assert a == [(Some(1.0), Some(5.0))];
    assert rows[1..][1..] == [];
    assert !Subseq(a, rows[1..][1..]);
    assert !Subseq(a, rows[1..]);
  }

  /** The three curve panels: what each plots and the std column its band needs. */
  datatype Panel = RewardPanel | VfLossPanel | AdvantagesPanel

  function MetricColumn(panel: Panel): Column {
    match panel
    case RewardPanel => RunningAverageRewards
    case VfLossPanel => VfLossMean
    case AdvantagesPanel => AdvsMeanMean
  }

  function SpreadColumn(panel: Panel): Column
    requires panel != RewardPanel
  {
    if panel == VfLossPanel then VfLossStd else AdvsMeanStd
  }

  /** One drawn curve: the legend label, colour, points, and whether a std band is drawn. */
  datatype Curve = Curve(legend: string, color: Color, points: seq<(Option<real>, real)>, band: bool)

  /** One iteration of a curve panel's try-block: read, filter, select the columns, draw
      the line and the band. The reward band (a rolling std) needs two values. */
  function CurveOf(e: Experiment, logs: map<string, Frame>, panel: Panel): Result<Curve, PyError> {
    if e.path !in logs then Err(LoadError)
    else
      var df :- FilterEpochs(logs[e.path]);
      var samples :- ColumnOf(df, TotalFrames);
      var metric :- ColumnOf(df, MetricColumn(panel));
      if panel != RewardPanel && SpreadColumn(panel) !in df.columns then Err(KeyError)
      else
        var values := DropMissing(metric);
        Ok(Curve(e.name, e.color, AsWrittenPoints(samples, metric),
                 if panel == RewardPanel then |values| > 1 else true))
  }

  /** A curve is drawn exactly when the log exists and has the columns the panel reads;
      it is labelled and coloured as its experiment, its points are the script's pairing
      of frame counts with the present values among the rows with EPOCH <= 610, and the
      reward band needs more than one value. */
  lemma CurveShape(e: Experiment, logs: map<string, Frame>, panel: Panel)
    ensures CurveOf(e, logs, panel).Ok? <==>
      && e.path in logs
      && {Epoch, TotalFrames, MetricColumn(panel)} <= logs[e.path].columns
      && (panel != RewardPanel ==> SpreadColumn(panel) in logs[e.path].columns)
    ensures CurveOf(e, logs, panel).Ok? ==>
      var c := CurveOf(e, logs, panel).value;
      var df := FilterEpochs(logs[e.path]).value;
      var values := DropMissing(ColumnOf(df, MetricColumn(panel)).value);
      && c.legend == e.name && c.color == e.color
      && c.points == AsWrittenPoints(ColumnOf(df, TotalFrames).value, ColumnOf(df, MetricColumn(panel)).value)
      && |c.points| == |values|
      && (panel == RewardPanel ==> (c.band <==> |values| > 1))
  {
  }

  function Names(experiments: seq<Experiment>): seq<string> {
    seq(|experiments|, i requires 0 <= i < |experiments| => experiments[i].name)
  }

  /** What a per-experiment loop whose body is a try-block collects: the results of the
      experiments that did not raise, in order; a failing one is reported and skipped. */
  function Survivors<B>(experiments: seq<Experiment>, attempt: Experiment -> Result<B, PyError>): seq<B> {
    if experiments == [] then []
    else
      var before := Survivors(experiments[..|experiments| - 1], attempt);
      match attempt(experiments[|experiments| - 1])
      case Ok(b) => before + [b]
      case Err(_) => before
  }

  function NamesOf<B>(results: seq<B>, nameOf: B -> string): seq<string> {
    seq(|results|, i requires 0 <= i < |results| => nameOf(results[i]))
  }

  /** When each result carries its experiment's name, the names collected are a
      subsequence of the experiments' names, in their order. */
  lemma {:induction false} SurvivorsInOrder<B>(experiments: seq<Experiment>, attempt: Experiment -> Result<B, PyError>,
                                               nameOf: B -> string)
    requires forall e :: attempt(e).Ok? ==> nameOf(attempt(e).value) == e.name
    ensures Subseq(NamesOf(Survivors(experiments, attempt), nameOf), Names(experiments))
  {
    if experiments != [] {
      var init := experiments[..|experiments| - 1];
      var last := experiments[|experiments| - 1];
      SurvivorsInOrder(init, attempt, nameOf);
      var before := Survivors(init, attempt);
      assert Names(experiments) == Names(init) + [last.name];
      match attempt(last) {
        case Ok(b) =>
          assert NamesOf(before + [b], nameOf) == NamesOf(before, nameOf) + [last.name];
          SubseqSnoc(NamesOf(before, nameOf), Names(init), last.name);
        case Err(_) =>
          SubseqExtend(NamesOf(before, nameOf), Names(init), last.name);
      }
    }
  }

  /** Error isolation: what a loop collects over two runs of experiments is what it
      collects over each run, concatenated, whatever fails in either. */
  lemma {:induction false} SurvivorsIsolation<B>(xs: seq<Experiment>, ys: seq<Experiment>,
                                                 attempt: Experiment -> Result<B, PyError>)
    ensures Survivors(xs + ys, attempt) == Survivors(xs, attempt) + Survivors(ys, attempt)
    decreases |ys|
  {
    if ys == [] {
      assert xs + ys == xs;
    } else {
      var init := ys[..|ys| - 1];
      var all := xs + ys;
      SurvivorsIsolation(xs, init, attempt);
      assert all[..|all| - 1] == xs + init;
      assert all[|all| - 1] == ys[|ys| - 1];
    }
  }

  /** Each result is one experiment's successful attempt. */
  lemma {:induction false} SurvivorsSucceeded<B>(experiments: seq<Experiment>, attempt: Experiment -> Result<B, PyError>)
    ensures forall b :: b in Survivors(experiments, attempt) ==>
      exists i :: 0 <= i < |experiments| && attempt(experiments[i]) == Ok(b)
  {
    if experiments != [] {
      var init := experiments[..|experiments| - 1];
      SurvivorsSucceeded(init, attempt);
      forall b | b in Survivors(experiments, attempt)
        ensures exists i :: 0 <= i < |experiments| && attempt(experiments[i]) == Ok(b)
      {
        if b in Survivors(init, attempt) {
          var i :| 0 <= i < |init| && attempt(init[i]) == Ok(b);
          assert init[i] == experiments[i];
        } else {
          assert attempt(experiments[|experiments| - 1]) == Ok(b);
        }
      }
    }
  }

  /** The curves one panel ends up with. */
  function PanelCurves(experiments: seq<Experiment>, logs: map<string, Frame>, panel: Panel): seq<Curve> {
    Survivors(experiments, e => CurveOf(e, logs, panel))
  }

  function CurveLegend(c: Curve): string {
    c.legend
  }

  /** The legend of a panel lists a subsequence of the experiments, in their order. */
  lemma PanelLegendInOrder(experiments: seq<Experiment>, logs: map<string, Frame>, panel: Panel)
    ensures Subseq(NamesOf(PanelCurves(experiments, logs, panel), CurveLegend), Names(experiments))
  {
    var attempt := e => CurveOf(e, logs, panel);
    forall e | attempt(e).Ok? ensures CurveLegend(attempt(e).value) == e.name {
      CurveShape(e, logs, panel);
    }
    SurvivorsInOrder(experiments, attempt, CurveLegend);
  }

  /** `(std / abs(mean)) * 100 if mean != 0 else 0`; NaN != 0 holds, so a NaN mean or
      std gives NaN. */
  function Cv(std: Option<real>, mean: Option<real>): (r: Option<real>)
    ensures mean == Some(0.0) ==> r == Some(0.0)
    ensures mean.Some? && mean.value != 0.0 && std.Some? ==>
      r.Some? && r.value * Abs(mean.value) == std.value * 100.0
    ensures r.Some? ==> mean.Some? && (mean.value == 0.0 || std.Some?)
  {
    match mean
    case None => None
    case Some(m) =>
      if m == 0.0 then Some(0.0)
      else if std.None? then None
      else Some(std.value / Abs(m) * 100.0)
  }

  function Abs(x: real): (r: real)
    ensures r >= 0.0 && (r == x || r == -x)
  {
    if x < 0.0 then -x else x
  }

  /** `min(cv, 250)`: min keeps its first argument unless 250 is smaller, so NaN stays. */
  function Capped(cv: Option<real>): (r: Option<real>)
    ensures r.None? <==> cv.None?
    ensures r.Some? ==> r.value <= CvCap
    ensures cv.Some? && cv.value <= CvCap ==> r == cv
    ensures cv.Some? && cv.value > CvCap ==> r == Some(CvCap)
  {
    match cv
    case None => None
    case Some(c) => if CvCap < c then Some(CvCap) else Some(c)
  }

  /** The dict appended to `stability_data`. */
  datatype StabilityEntry = StabilityEntry(
    experiment: string, rewardsCv: Option<real>, vfLossCv: Option<real>, advantagesCv: Option<real>)

  /** The three present-value series the stability panel and the summary read. */
  function Series(e: Experiment, logs: map<string, Frame>): Result<(seq<real>, seq<real>, seq<real>), PyError> {
    if e.path !in logs then Err(LoadError)
    else
      var df :- FilterEpochs(logs[e.path]);
      var rewards :- ColumnOf(df, RunningAverageRewards);
      var vfLoss :- ColumnOf(df, VfLossMean);
      var advsMean :- ColumnOf(df, AdvsMeanMean);
      Ok((DropMissing(rewards), DropMissing(vfLoss), DropMissing(advsMean)))
  }

  function CvOf(values: seq<real>, stats: Stats): Option<real> {
    Cv(stats.std(values), stats.mean(values))
  }

  /** One iteration of the stability loop's try-block. */
  function StabilityOf(e: Experiment, logs: map<string, Frame>, stats: Stats): (r: Result<StabilityEntry, PyError>)
    ensures r.Ok? <==> e.path in logs && {Epoch, RunningAverageRewards, VfLossMean, AdvsMeanMean} <= logs[e.path].columns
    ensures r.Ok? ==> r.value.experiment == e.name
    ensures r.Ok? && r.value.advantagesCv.Some? ==> r.value.advantagesCv.value <= CvCap
    ensures r.Ok? ==>
      var s := Series(e, logs).value;
      && r.value.rewardsCv == CvOf(s.0, stats)
      && r.value.vfLossCv == CvOf(s.1, stats)
      && r.value.advantagesCv == Capped(CvOf(s.2, stats))
  {
    var series :- Series(e, logs);
    Ok(StabilityEntry(e.name, CvOf(series.0, stats), CvOf(series.1, stats), Capped(CvOf(series.2, stats))))
  }

  /** `stability_data` after the loop over the first experiments. */
  function StabilityData(experiments: seq<Experiment>, logs: map<string, Frame>, stats: Stats): seq<StabilityEntry> {
    Survivors(experiments, e => StabilityOf(e, logs, stats))
  }

  /** The stability loop. */
  method BuildStabilityData(experiments: seq<Experiment>, logs: map<string, Frame>, stats: Stats)
    returns (stabilityData: seq<StabilityEntry>)
    ensures stabilityData == StabilityData(experiments, logs, stats)
  {
    stabilityData := [];
    for i := 0 to |experiments|
      invariant stabilityData == StabilityData(experiments[..i], logs, stats)
    {
      assert experiments[..i + 1][..i] == experiments[..i];
      var entry := StabilityOf(experiments[i], logs, stats);
      if entry.Ok? {
        stabilityData := stabilityData + [entry.value];
      }
    }
    assert experiments[..|experiments|] == experiments;
  }

  function EntryName(d: StabilityEntry): string {
    d.experiment
  }

  /** The stability data name a subsequence of the experiments, in order, and every
      advantages CV in it is at most 250 or NaN. */
  lemma StabilityDataShape(experiments: seq<Experiment>, logs: map<string, Frame>, stats: Stats)
    ensures Subseq(NamesOf(StabilityData(experiments, logs, stats), EntryName), Names(experiments))
    ensures forall d :: d in StabilityData(experiments, logs, stats) && d.advantagesCv.Some?
              ==> d.advantagesCv.value <= CvCap
  {
    var attempt := e => StabilityOf(e, logs, stats);
    SurvivorsInOrder(experiments, attempt, EntryName);
    SurvivorsSucceeded(experiments, attempt);
  }

  /** The figure's path: a plotting script exits with status 1 unless given exactly an
      input and an output folder, and saves the figure under the output folder. */
  function FigurePath(argv: seq<string>, fileName: string): (r: Option<string>)
    requires fileName != [] && fileName[0] != '/'
    ensures r.Some? <==> |argv| == 3
    ensures r.Some? ==>
      argv[2] <= r.value && |fileName| <= |r.value| && r.value[|r.value| - |fileName|..] == fileName
    ensures r.Some? ==> r.value == Join(argv[2], fileName)
  {
    if |argv| != 3 then None else Some(Join(argv[2], fileName))
  }

  /** `max(1, n // 5)` for a series of more than five values, else no convergence line. */
  function ConvergenceWindow(n: nat): (r: Option<nat>)
    ensures r.Some? <==> n > 5
    ensures r.Some? ==> 1 <= r.value <= n && r.value == n / 5
  {
    if n > 5 then Some(if n / 5 > 1 then n / 5 else 1) else None
  }

  /** One summary line: the series' std and its CV. */
  datatype StatLine = StatLine(std: Option<real>, cv: Option<real>)

  datatype Convergence = Convergence(window: nat, finalStd: Option<real>)

  /** What the analysis loop prints for one experiment. */
  datatype Summary = Summary(
    name: string, points: nat,
    reward: Option<StatLine>, vfLoss: Option<StatLine>, advantages: Option<StatLine>,
    convergence: Option<Convergence>)

  /** `(std / abs(mean)) * 100` on float64 without a guard: a zero or NaN mean gives
      infinity or NaN (None here). */
  function UnguardedCv(std: Option<real>, mean: Option<real>): (r: Option<real>)
    ensures r.Some? <==> mean.Some? && mean.value != 0.0 && std.Some?
    ensures r.Some? ==> r == Cv(std, mean)
  {
    if mean.Some? && mean.value != 0.0 && std.Some? then Some(std.value / Abs(mean.value) * 100.0)
    else None
  }

  /** A summary line is printed only for a non-empty series. */
  function StatLineOf(values: seq<real>, stats: Stats): Option<StatLine> {
    if |values| > 0 then Some(StatLine(stats.std(values), UnguardedCv(stats.std(values), stats.mean(values))))
    else None
  }

  /** One iteration of the analysis loop's try-block. */
  function SummaryOf(e: Experiment, logs: map<string, Frame>, stats: Stats): Result<Summary, PyError> {
    var series :- Series(e, logs);
    var rewards := series.0;
    var convergence :=
      match ConvergenceWindow(|rewards|)
      case None => None
      case Some(w) => Some(Convergence(w, stats.std(rewards[|rewards| - w..])));
    Ok(Summary(e.name, |rewards|, StatLineOf(rewards, stats), StatLineOf(series.1, stats),
               StatLineOf(series.2, stats), convergence))
  }

  /** The summary fails exactly where the stability entry fails. Each line is printed
      iff its series is non-empty; its CV agrees with the stability panel's when the
      mean is a non-zero number and is not finite when the mean is zero, where the
      panel shows 0. The convergence line needs more than five rewards, and measures
      the last `n // 5` of them. */
  lemma SummaryShape(e: Experiment, logs: map<string, Frame>, stats: Stats)
    ensures SummaryOf(e, logs, stats).Ok? <==> StabilityOf(e, logs, stats).Ok?
    ensures SummaryOf(e, logs, stats).Ok? ==>
      var s := SummaryOf(e, logs, stats).value;
      var entry := StabilityOf(e, logs, stats).value;
      var rewards := Series(e, logs).value.0;
      && s.name == e.name && s.points == |rewards|
      && (s.reward.Some? <==> |rewards| > 0)
      && (s.vfLoss.Some? <==> |Series(e, logs).value.1| > 0)
      && (s.advantages.Some? <==> |Series(e, logs).value.2| > 0)
      && (s.reward.Some? && s.reward.value.cv.Some? ==> s.reward.value.cv == entry.rewardsCv)
      && (s.reward.Some? && stats.mean(rewards) == Some(0.0) ==>
            s.reward.value.cv.None? && entry.rewardsCv == Some(0.0))
      && (s.convergence.Some? <==> |rewards| > 5)
      && (s.convergence.Some? ==>
            var w := s.convergence.value.window;
            1 <= w <= |rewards| && w == |rewards| / 5
            && s.convergence.value.finalStd == stats.std(rewards[|rewards| - w..]))
  {
    match Series(e, logs) {
      case Err(_) =>
      case Ok(series) =>
        assert StabilityOf(e, logs, stats).value.rewardsCv == CvOf(series.0, stats);
    }
  }
}
