/**
 * plot_mamba_exp.py: the fixed table of the five experiments it compares,
 * each with its log under the input folder and its own colour. The rest of
 * the script is the shared analysis in LogAnalysis.
 */
module MambaPlot {
  import opened Wrappers
  import opened PosixPath
  import opened LogAnalysis

  const OutputName: string := "learning_curves_mamba_exp.png"

  /** Every log is the first run of the A1MoveGround task of its experiment. */
  const LogSuffix: string := "A1MoveGround/0/log.csv"

  /** (name, run folder relative to the input folder, colour), in table order; the log
      path is the run folder followed by LogSuffix. */
  const Table: seq<(string, string, string)> := [
    ("State-Only Baseline", "state-only-baseline/", "blue"),
    ("Mamba-Vision-State", "thin-mamba/", "red"),
    ("Transformer-Vision-State", "thin/", "green"),
    ("Mamba-Vision-Only", "mamba-vision/", "purple"),
    ("Transformer-Vision-Only", "tf-vision/thin-vision/", "orange")
  ]

  /** `experiments`: the table's paths joined to the input folder. */
  function Experiments(inputFolder: string): (r: seq<Experiment>)
    ensures |r| == |Table| == 5
    ensures forall i :: 0 <= i < |r| ==>
      r[i].name == Table[i].0 && r[i].color == Named(Table[i].2)
      && r[i].path == Join(inputFolder, Table[i].1 + LogSuffix)
  {
    seq(|Table|, i requires 0 <= i < |Table| =>
      Experiment(Table[i].0, Join(inputFolder, Table[i].1 + LogSuffix), Named(Table[i].2)))
  }

  /** The run folders are relative paths. */
  lemma TableFoldersRelative()
    ensures forall i :: 0 <= i < |Table| ==> Table[i].1 != [] && Table[i].1[0] != '/'
  {
  }

  /** A relative run folder's log joined to the input folder lies under it and ends
      with the log file. */
  lemma JoinedLog(inputFolder: string, folder: string)
    requires folder != [] && folder[0] != '/'
    ensures var p := Join(inputFolder, folder + LogSuffix);
      inputFolder <= p && |LogSuffix| <= |p| && p[|p| - |LogSuffix|..] == LogSuffix
  {
    var rel := folder + LogSuffix;
    assert rel[0] != '/';
    var p := Join(inputFolder, rel);
    assert p[|p| - |LogSuffix|..] == p[|p| - |rel|..][|rel| - |LogSuffix|..];
  }

  /** Every log path lies under the input folder and ends with the run's log file. */
  lemma ExperimentPaths(inputFolder: string)
    ensures forall i :: 0 <= i < |Experiments(inputFolder)| ==>
      var p := Experiments(inputFolder)[i].path;
      inputFolder <= p && |LogSuffix| <= |p| && p[|p| - |LogSuffix|..] == LogSuffix
  {
    var r := Experiments(inputFolder);
    forall i | 0 <= i < |r|
      ensures inputFolder <= r[i].path && |LogSuffix| <= |r[i].path|
      ensures r[i].path[|r[i].path| - |LogSuffix|..] == LogSuffix
    {
      TableFoldersRelative();
      JoinedLog(inputFolder, Table[i].1);
    }
  }

  /** The table has five different names and five different colours. */
  lemma TableDistinct()
    ensures forall i, j :: 0 <= i < j < |Table| ==> Table[i].0 != Table[j].0 && Table[i].2 != Table[j].2
  {
  }

  /** The five experiments have five different names and five different colours. */
  lemma ExperimentsDistinct(inputFolder: string)
    ensures forall i, j :: 0 <= i < j < |Experiments(inputFolder)| ==>
      Experiments(inputFolder)[i].name != Experiments(inputFolder)[j].name
      && Experiments(inputFolder)[i].color != Experiments(inputFolder)[j].color
  {
    TableDistinct();
  }

  /** The figure's path, for this script's file name. */
  function OutputFile(argv: seq<string>): Option<string> {
    FigurePath(argv, OutputName)
  }
}
