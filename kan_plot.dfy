/**
 * plot_kan_exp.py, `find_all_experiments`: every subdirectory of the log
 * folder, in sorted order, is searched for a log file through four
 * candidate glob patterns; the first pattern that matches anything decides
 * the file. Each experiment found gets the next colour of a ten-colour
 * palette. The rest of the script is the shared analysis in LogAnalysis.
 *
 * The directory listing, the set of directories, glob and os.path.exists
 * are parameters: a listing, a set of directory paths, a map from pattern
 * to its matches in glob's order, and a set of existing paths.
 */
module KanPlot {
  import opened Wrappers
  import opened Seqs
  import opened PosixPath
  import opened LogAnalysis

  /** `cm.tab10` has ten colours. */
  const PaletteSize: nat := 10

  /** Where a log may sit under an experiment folder, in order of preference. */
  const CandidatePatterns: seq<string> := [
    "A1MoveGround/0/log.csv",
    "*/A1MoveGround/0/log.csv",
    "thin-vision/A1MoveGround/0/log.csv",
    "thin/A1MoveGround/0/log.csv"
  ]

  const OutputName: string := "learning_curves_kan_exp.png"

  /** Python's string order: lexicographic by code point. */
  predicate StrLe(a: string, b: string)
    decreases |a|
  {
    a == [] || (b != [] && (a[0] < b[0] || (a[0] == b[0] && StrLe(a[1..], b[1..]))))
  }

  lemma {:induction false} StrLeTotal(a: string, b: string)
    ensures StrLe(a, b) || StrLe(b, a)
    decreases |a|
  {
    if a != [] && b != [] && a[0] == b[0] {
      StrLeTotal(a[1..], b[1..]);
    }
  }

  predicate Sorted(s: seq<string>) {
    forall i :: 0 < i < |s| ==> StrLe(s[i - 1], s[i])
  }

  function Insert(x: string, s: seq<string>): (r: seq<string>)
    requires Sorted(s)
    ensures Sorted(r)
    ensures multiset(r) == multiset(s) + multiset{x}
    ensures r[0] == x || (s != [] && r[0] == s[0])
  {
    if s == [] then [x]
    else if StrLe(x, s[0]) then
      SortedCons(x, s);
      [x] + s
    else
      StrLeTotal(x, s[0]);
      assert s == [s[0]] + s[1..];
      var rest := Insert(x, s[1..]);
      assert |s| > 1 ==> StrLe(s[0], s[1]);
      SortedCons(s[0], rest);
      [s[0]] + rest
  }

  /** A sorted sequence stays sorted under a head no greater than its first element. */
  lemma SortedCons(a: string, t: seq<string>)
    requires Sorted(t) && (t != [] ==> StrLe(a, t[0]))
    ensures Sorted([a] + t)
  {
    var r := [a] + t;
    forall i | 0 < i < |r| ensures StrLe(r[i - 1], r[i]) {
      if i > 1 {
        assert r[i - 1] == t[i - 2] && r[i] == t[i - 1];
      }
    }
  }

  /** `list.sort()` on strings: the same names, in ascending order. */
  function SortStrings(s: seq<string>): (r: seq<string>)
    ensures Sorted(r)
    ensures multiset(r) == multiset(s)
  {
    if s == [] then []
    else
      assert s == [s[0]] + s[1..];
      Insert(s[0], SortStrings(s[1..]))
  }

  /** `[d for d in listdir(base) if isdir(join(base, d))]`. */
  function Subdirs(base: string, listing: seq<string>, dirs: set<string>): seq<string> {
    Filter(listing, d => Join(base, d) in dirs)
  }

  /** `os.path.join(base, subdir, pattern)` for the four candidates. */
  function CandidatePaths(base: string, subdir: string): (r: seq<string>)
    ensures |r| == |CandidatePatterns|
    ensures forall i :: 0 <= i < |r| ==> r[i] == Join(Join(base, subdir), CandidatePatterns[i])
  {
    seq(|CandidatePatterns|, i requires 0 <= i < |CandidatePatterns| => Join(Join(base, subdir), CandidatePatterns[i]))
  }

  /** `glob.glob(pattern)`. */
  function Matches(glob: map<string, seq<string>>, pattern: string): seq<string> {
    if pattern in glob then glob[pattern] else []
  }

  /** The index of the first pattern with any match. */
  function FirstMatch(patterns: seq<string>, glob: map<string, seq<string>>): (r: Option<nat>)
    ensures r.None? <==> forall j :: 0 <= j < |patterns| ==> Matches(glob, patterns[j]) == []
    ensures r.Some? ==> r.value < |patterns| && Matches(glob, patterns[r.value]) != []
    ensures r.Some? ==> forall j :: 0 <= j < r.value ==> Matches(glob, patterns[j]) == []
  {
    if patterns == [] then None
    else if Matches(glob, patterns[0]) != [] then Some(0)
    else
      match FirstMatch(patterns[1..], glob)
      case None => None
      case Some(i) => Some(i + 1)
  }

  /** The first match of the first pattern that matches anything. */
  function FirstMatchFile(patterns: seq<string>, glob: map<string, seq<string>>): Option<string> {
    match FirstMatch(patterns, glob)
    case None => None
    case Some(i) => Some(Matches(glob, patterns[i])[0])
  }

  /** The inner loop: try the patterns in order and stop at the first with a match. */
  method ChooseLogFile(possiblePaths: seq<string>, glob: map<string, seq<string>>) returns (logFile: Option<string>)
    ensures logFile == FirstMatchFile(possiblePaths, glob)
  {
    logFile := None;
    var k := 0;
    while k < |possiblePaths|
      invariant 0 <= k <= |possiblePaths|
      invariant forall j :: 0 <= j < k ==> Matches(glob, possiblePaths[j]) == []
      invariant logFile.None?
    {
      var matches := Matches(glob, possiblePaths[k]);
      if matches != [] {
        logFile := Some(matches[0]);
        break;
      }
      k := k + 1;
    }
  }

  /** The log file chosen for a subdirectory, if any, before the existence test. */
  function LogFileFor(base: string, subdir: string, glob: map<string, seq<string>>): Option<string> {
    FirstMatchFile(CandidatePaths(base, subdir), glob)
  }

  /** `if log_file and os.path.exists(log_file)`: the log of a subdirectory, if usable. */
  function UsableLog(base: string, subdir: string, glob: map<string, seq<string>>, existing: set<string>)
    : Option<string>
  {
    match LogFileFor(base, subdir, glob)
    case Some(f) => if f != [] && f in existing then Some(f) else None
    case None => None
  }

  function Usability(base: string, glob: map<string, seq<string>>, existing: set<string>): string -> Option<string> {
    d => UsableLog(base, d, glob, existing)
  }

  /** The experiments found among the first subdirectories, given which subdirectory has
      a usable log: the colour index counts the experiments found so far. */
  function Found(subdirs: seq<string>, usable: string -> Option<string>): seq<Experiment> {
    if subdirs == [] then []
    else
      var before := Found(subdirs[..|subdirs| - 1], usable);
      var subdir := subdirs[|subdirs| - 1];
      match usable(subdir)
      case Some(f) => before + [Experiment(subdir, f, Palette(|before| % PaletteSize))]
      case None => before
  }

  /** find_all_experiments. */
  method FindAllExperiments(base: string, listing: seq<string>, dirs: set<string>,
                            glob: map<string, seq<string>>, existing: set<string>)
    returns (experiments: seq<Experiment>)
    ensures experiments == Found(SortStrings(Subdirs(base, listing, dirs)), Usability(base, glob, existing))
  {
    var subdirs := Subdirs(base, listing, dirs);
    subdirs := SortStrings(subdirs);
    experiments := CollectExperiments(base, subdirs, glob, existing);
  }

  /** The loop over the sorted subdirectories. */
  method CollectExperiments(base: string, subdirs: seq<string>,
                            glob: map<string, seq<string>>, existing: set<string>)
    returns (experiments: seq<Experiment>)
    ensures experiments == Found(subdirs, Usability(base, glob, existing))
  {
    experiments := [];
    var colorIdx := 0;
    for n := 0 to |subdirs|
      invariant experiments == Found(subdirs[..n], Usability(base, glob, existing))
      invariant colorIdx == |experiments|
    {
      assert subdirs[..n + 1][..n] == subdirs[..n];
      var subdir := subdirs[n];
      var logFile := ChooseLogFile(CandidatePaths(base, subdir), glob);
      assert logFile == LogFileFor(base, subdir, glob);
      if logFile.Some? && logFile.value != [] && logFile.value in existing {
        experiments := experiments + [Experiment(subdir, logFile.value, Palette(colorIdx % PaletteSize))];
        colorIdx := colorIdx + 1;
      }
    }
    assert subdirs[..|subdirs|] == subdirs;
  }

  /** The experiments keep the order of the subdirectories. */
  lemma {:induction false} FoundInOrder(subdirs: seq<string>, usable: string -> Option<string>)
    ensures Subseq(Names(Found(subdirs, usable)), subdirs)
  {
    if subdirs != [] {
      var init := subdirs[..|subdirs| - 1];
      var last := subdirs[|subdirs| - 1];
      FoundInOrder(init, usable);
      var before := Found(init, usable);
      assert subdirs == init + [last];
      match usable(last) {
        case Some(f) =>
          var e := Experiment(last, f, Palette(|before| % PaletteSize));
          assert Names(before + [e]) == Names(before) + [last];
          SubseqSnoc(Names(before), init, last);
        case None =>
          SubseqExtend(Names(before), init, last);
      }
    }
  }

  /** A subdirectory appears exactly when it has a usable log. */
  lemma {:induction false} FoundExactly(subdirs: seq<string>, usable: string -> Option<string>)
    ensures forall d :: d in Names(Found(subdirs, usable)) <==> d in subdirs && usable(d).Some?
  {
    if subdirs != [] {
      var init := subdirs[..|subdirs| - 1];
      var last := subdirs[|subdirs| - 1];
      FoundExactly(init, usable);
      var before := Found(init, usable);
      assert subdirs == init + [last];
      match usable(last) {
        case Some(f) =>
          var e := Experiment(last, f, Palette(|before| % PaletteSize));
          assert Names(before + [e]) == Names(before) + [last];
        case None =>
      }
    }
  }

  /** The k-th experiment found carries its subdirectory's log and palette colour k mod 10. */
  lemma {:induction false} FoundEntries(subdirs: seq<string>, usable: string -> Option<string>)
    ensures forall k :: 0 <= k < |Found(subdirs, usable)| ==>
      usable(Found(subdirs, usable)[k].name) == Some(Found(subdirs, usable)[k].path)
      && Found(subdirs, usable)[k].color == Palette(k % PaletteSize)
  {
    if subdirs != [] {
      FoundEntries(subdirs[..|subdirs| - 1], usable);
    }
  }

  /** The first ten experiments found get ten different palette colours. */
  lemma FirstTenColorsDistinct(subdirs: seq<string>, usable: string -> Option<string>, i: nat, j: nat)
    requires i < j < |Found(subdirs, usable)| && j < PaletteSize
    ensures Found(subdirs, usable)[i].color != Found(subdirs, usable)[j].color
  {
    FoundEntries(subdirs, usable);
  }

  /** The first matching pattern decides: what later patterns match is never consulted. */
  lemma FirstMatchDecides(patterns: seq<string>, glob1: map<string, seq<string>>,
                          glob2: map<string, seq<string>>, i: nat)
    requires i < |patterns|
    requires forall j :: 0 <= j <= i ==> Matches(glob1, patterns[j]) == Matches(glob2, patterns[j])
    requires Matches(glob1, patterns[i]) != []
    ensures FirstMatchFile(patterns, glob1) == FirstMatchFile(patterns, glob2)
    ensures FirstMatchFile(patterns, glob1).Some?
  {
    var r1 := FirstMatch(patterns, glob1);
    var r2 := FirstMatch(patterns, glob2);
    assert r1.Some? && r1.value <= i;
    assert r2.Some? && r2.value <= i;
  }

  /** The figure's path, for this script's file name. */
  function OutputFile(argv: seq<string>): Option<string> {
    FigurePath(argv, OutputName)
  }
}
