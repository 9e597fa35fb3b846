# mamba_quad configuration and log-analysis utilities, in Dafny

This project models the repository's own logic around its training framework:

- the converter that rewrites transformer configs into Mamba configs;
- the launcher's net-parameter conversion and the small decisions it makes before training;
- the config validator;
- the two plotting scripts that compare training logs.

Each operation is written in the form the script uses. Loops that append to lists or count are methods with loop invariants. Each method is proved equal to a specification function, and the properties the scripts rely on are lemmas about those functions.

Modules:

- `Wrappers`: Option and Result.
- `Json`: JSON values, with Python's `in`, subscript, `.get` and `len` over them. Each has the exception Python raises: TypeError on a scalar, KeyError on a missing key.
- `PosixPath`: `os.path.join`, `os.path.splitext` and `os.path.split(...)[1]`.
- `Seqs`: filtering and subsequences.
- `MambaParams`: the transformer-to-Mamba loop that the converter and the launcher share. Python iterates a list by its elements, a string by its characters and a dict by its keys, and every element must unpack into exactly two values.
- `Converter`, `Launcher`, `ConfigCheck`: the three config scripts.
- `LogAnalysis`: the per-experiment analysis that both plotting scripts share, line for line. Line N of plot_mamba_exp.py is line N+32 of plot_kan_exp.py.
- `KanPlot` and `MambaPlot`: how each plotting script finds its experiments.

The model follows the code where the script's documented behaviour says otherwise:

- A missing log column raises KeyError. The experiment then drops out of that panel; the panel does not degrade.
- plot_kan_exp.py takes the first glob match and only then tests that it exists. It does not search for the first match that exists.
- An empty series is still plotted. It is not skipped.
- The converter walks a directory only.
- The launcher also stores a `base_type` in the net section before copying it. So `net_params` carries that key into both network calls.

## Model

| member | source | states |
|---|---|---|
| MambaParams.UnpackError | tests/convert_transformer_to_mamba_config.py:14 | unpacking `n_head, dim_feedforward` fails exactly when the element does not have length 2 |
| MambaParams.ParamsAllUnpack | tests/convert_transformer_to_mamba_config.py:14-24 | when every element unpacks, the result is one `[visual_dim, 16, 4, 2]` per element |
| MambaParams.ParamsFirstError | tests/convert_transformer_to_mamba_config.py:14 | the first element that does not unpack decides the exception |
| MambaParams.ParamsShape | tests/convert_transformer_to_mamba_config.py:13-25 | the conversion succeeds iff every element is a pair; then the output has the input's length and every entry is `[visual_dim, 16, 4, 2]`, whatever the pair holds |
| MambaParams.KeysOf | tests/convert_transformer_to_mamba_config.py:14 | iterating a dict visits each of its keys once |
| MambaParams.ConvertParams | tests/convert_transformer_to_mamba_config.py:11-25 | the append loop yields the mapping of the iterated value: list elements, string characters or dict keys |
| Converter.VisualDim | tests/convert_transformer_to_mamba_config.py:38 | visual_dim is encoder.visual_dim when set, 256 without it or without an encoder; a non-dict encoder raises AttributeError |
| Converter.Parent | tests/convert_transformer_to_mamba_config.py:55 | the output file's directory is every component but the last |
| Converter.MakeDirs | tests/convert_transformer_to_mamba_config.py:55 | `os.makedirs(dir, exist_ok=True)` fails with FileNotFoundError exactly on the empty path |
| Converter.FileOutcome | tests/convert_transformer_to_mamba_config.py:27-62 | a file counts as converted iff its conversion succeeds and its output directory is not ''; a conversion whose output directory is '' raises FileNotFoundError; every other outcome is the conversion's |
| Converter.ConvertConfigFile | tests/convert_transformer_to_mamba_config.py:27-62 | the in-place edit of the loaded config, then creating the output directory, gives the file's outcome: converted document, not converted, or the exception |
| Converter.ConversionSteps | tests/convert_transformer_to_mamba_config.py:30-46 | a conversion that yields a document found a dict config with a dict net holding transformer_params, a visual_dim and a successful mapping, and wrote their edit |
| Converter.RewriteShape | tests/convert_transformer_to_mamba_config.py:45-46 | the edit sets net.mamba_params, removes net.transformer_params and keeps every other key of net and of the config |
| Converter.MambaParamsForShape | tests/convert_transformer_to_mamba_config.py:41-42 | a successful conversion has one constant entry per transformer layer |
| Converter.ConvertedShape | tests/convert_transformer_to_mamba_config.py:36-46 | after conversion net holds mamba_params and no transformer_params; every other top-level key and net key keeps its value; mamba_params has one `[visual_dim, 16, 4, 2]` per layer |
| Converter.ReconversionSkips | tests/convert_transformer_to_mamba_config.py:36-52 | converting a converted document again reports nothing to convert |
| Converter.MissingSectionNotConverted | tests/convert_transformer_to_mamba_config.py:36-52 | a dict config without net, or whose net lacks transformer_params, returns False |
| Converter.ExampleConversion | tests/convert_transformer_to_mamba_config.py:36-46 | `{"net": {"transformer_params": [[4, 256]]}}` with encoder visual_dim 128 becomes mamba_params `[[128, 16, 4, 2]]` |
| Converter.ConvertedCount | tests/convert_transformer_to_mamba_config.py:73-89 | the converted count never exceeds the number of files |
| Converter.OutputPath | tests/convert_transformer_to_mamba_config.py:82-83 | the output file is the output root followed by the file's path relative to the input root |
| Converter.OutputPathInjective | tests/convert_transformer_to_mamba_config.py:82-83 | distinct relative paths land on distinct output paths |
| Converter.ConvertDirectory | tests/convert_transformer_to_mamba_config.py:64-92 | a missing input dir returns False before any file is read; otherwise every file is counted, exactly the converted files are written, and the result is converted > 0 |
| Converter.ConvertFiles | tests/convert_transformer_to_mamba_config.py:75-89 | the loop counts every file, tries each one, carries on past an exception, and writes each converted document at its mirrored path |
| Converter.DirectoryStep | tests/convert_transformer_to_mamba_config.py:78-89 | one more file adds one to the count and one write exactly when that file is converted |
| Converter.OutputOf | tests/convert_transformer_to_mamba_config.py:78-89 | with distinct relative paths, each converted file's document is written at its mirrored path and an unconverted file writes nothing |
| Converter.OutputsOnlyMirrored | tests/convert_transformer_to_mamba_config.py:82-87 | only mirrored paths of enumerated files are written |
| Converter.TopLevelUnderCurrentDirectory | tests/convert_transformer_to_mamba_config.py:55 | with output root "." or "", a top-level input file whose conversion succeeds raises FileNotFoundError and is not written |
| Converter.NestedOutputSaved | tests/convert_transformer_to_mamba_config.py:55 | under any other output root, or for a file in a sub-directory, the file's outcome is its conversion's |
| Converter.ConvertedWithoutTransformerSection | tests/convert_transformer_to_mamba_config.py:45-46 | every converted document has a dict net without transformer_params |
| Converter.RerunConvertsNothing | tests/convert_transformer_to_mamba_config.py:73-89 | running the converter over its own output converts nothing |
| Converter.ConverterMain | tests/convert_transformer_to_mamba_config.py:94-117 | fewer than two arguments exits 1 and writes nothing; otherwise the exit code is 0 iff some file was converted |
| Json.Contains | tests/convert_transformer_to_mamba_config.py:36 | Python's `in`: key membership on a dict, element membership on a list, substring on a string; TypeError on anything else |
| Json.Subscript | tests/convert_transformer_to_mamba_config.py:41 | `d[key]` is the value under the key; KeyError when a dict lacks it, TypeError on a non-dict |
| Json.Get | tests/convert_transformer_to_mamba_config.py:38 | `d.get(key, default)` is the value under the key or the default; AttributeError on a non-dict |
| Json.Len | tests/test_mamba_config.py:36 | `len` is the number of list elements, string characters or dict keys; TypeError on anything else |
| PosixPath.Join | plot_mamba_exp.py:23 | an absolute second part replaces the first; otherwise the result is the first part, a '/' unless it is empty or already ends in one, then the second part |
| PosixPath.SplitExt | starter/ppo_locomamba.py:75-76 | root + extension is the path; a non-empty extension starts at the last '.' of the last component and is preceded by a non-dot character of that component; an empty extension means that component has no '.' after its leading dots |
| PosixPath.Basename | starter/ppo_locomamba.py:75-76 | the last path component: the longest suffix of the path with no '/' |
| PosixPath.BasenameOfRoot | starter/ppo_locomamba.py:75-76 | the last component of the extension-less root, plus the extension, is the last component |
| Launcher.Args.constructor | starter/ppo_locomamba.py:27 | the parsed arguments hold the given values |
| Launcher.RequireCuda | starter/ppo_locomamba.py:34-43 | without CUDA the run raises RuntimeError and args.cuda is untouched; with CUDA args.cuda is True afterwards |
| Launcher.EvalCount | starter/ppo_locomamba.py:54-59 | the evaluation env and process counts are max(2, n): at least 2 and at least the training value |
| Launcher.ExperimentName | starter/ppo_locomamba.py:75-77 | args.id when given; otherwise the config's last component without its extension, containing no '/' |
| Launcher.ExampleName | starter/ppo_locomamba.py:75-77 | "static/thin.json" names the run "thin" |
| Launcher.ExampleHiddenName | starter/ppo_locomamba.py:75-77 | "cfg/.json" names the run ".json", since a leading dot starts no extension |
| Launcher.BuildNetParams | starter/ppo_locomamba.py:102-123 | the copy-and-edit of net_params computes the specified net params |
| Launcher.NetParamsShape | starter/ppo_locomamba.py:102-123 | net_params has mamba_params and no transformer_params; other keys keep their values; converted lists have one `(visual_dim, 16, 4, 2)` per layer; without transformer_params it is exactly one default layer, overwriting any mamba_params |
| Launcher.PairListConverts | starter/ppo_locomamba.py:104-119 | a transformer list of pairs always converts, to a list of the same length |
| Launcher.WithBaseType | starter/ppo_locomamba.py:93 | storing base_type adds that key and leaves the others unchanged |
| Launcher.CallKwargs | starter/ppo_locomamba.py:125-140 | a call with two ** expansions succeeds iff no keyword is given twice, and then every expanded key arrives with its value |
| Launcher.CallWithoutSecond | starter/ppo_locomamba.py:134-140 | the value network, called with net_params alone, receives exactly net_params |
| Launcher.PlanExperiment | starter/ppo_locomamba.py:31-140 | the CUDA gate, then the plan: counts, name, net_params and both networks' keyword arguments |
| Launcher.PlanValue | starter/ppo_locomamba.py:93-140 | a successful plan had dict net and policy sections and a policy call without clashes |
| Launcher.PlanSharesNetParams | starter/ppo_locomamba.py:103-140 | the policy and the value network receive the same net_params, built from the net section |
| Launcher.PlanShape | starter/ppo_locomamba.py:54-93 | net_params carry the stored base_type; the evaluation counts are at least 2 and at least the training counts |
| ConfigCheck.CheckConfigIff | tests/test_mamba_config.py:28-36 | a config passes iff env_name, env, env.env_build, net and net.mamba_params are present; the reported layer count is len(net.mamba_params) |
| ConfigCheck.ConvertedConfigPasses | tests/test_mamba_config.py:28-36 | a converted config that had env_name and env.env_build passes, reporting the transformer list's layer count |
| ConfigCheck.TestConfigLoading | tests/test_mamba_config.py:10-42 | True iff all four configs pass; the first failure returns False and later configs are not checked |
| ConfigCheck.TestMain | tests/test_mamba_config.py:65-85 | both checks run; success is their conjunction; the exit code is 0 iff success |
| LogAnalysis.FilterEpochs | plot_mamba_exp.py:40 | the filter raises KeyError without an EPOCH column and otherwise keeps exactly the rows with EPOCH <= 610 |
| LogAnalysis.FilterEpochsExact | plot_mamba_exp.py:40 | the kept rows are in original order, and each is kept as often as it occurs |
| LogAnalysis.FilterEpochsOfOrderedLog | plot_mamba_exp.py:40 | in a log with non-decreasing epochs, the filter keeps the prefix before the first epoch above 610 |
| LogAnalysis.ColumnOf | plot_mamba_exp.py:41 | selecting a column gives one cell per row, or KeyError when the log lacks it |
| LogAnalysis.ColumnOfCells | plot_mamba_exp.py:41 | the selected column holds each row's cell, in row order |
| LogAnalysis.DropMissing | plot_mamba_exp.py:42 | dropna keeps exactly the present values and never lengthens; it keeps the length iff nothing is missing |
| LogAnalysis.DropMissingAllAbsent | plot_mamba_exp.py:42 | a series in which every cell is missing drops to nothing |
| LogAnalysis.DropMissingAppend | plot_mamba_exp.py:42 | dropna of two runs of rows is dropna of each, concatenated |
| LogAnalysis.DropMissingOrder | plot_mamba_exp.py:42 | a present value keeps its order: it is preceded in the result by exactly the present values of the earlier rows |
| LogAnalysis.PlottedSamples | plot_mamba_exp.py:43 | the truncated frame column is a prefix of equal length to the present values |
| LogAnalysis.AsWrittenPoints | plot_mamba_exp.py:41-46 | the plotted points as written: one per present value, the k-th present value against the k-th row's frame count |
| LogAnalysis.AsWrittenCons | plot_mamba_exp.py:41-46 | when the first row has the metric, the as-written points are that row followed by the points of the remaining rows |
| LogAnalysis.AsWrittenMisaligns | plot_mamba_exp.py:41-46 | frames [1, 2] with rewards [NaN, 5] plot (1, 5), which is not a row of the log |
| LogAnalysis.AsWrittenAlignedWithoutGaps | plot_mamba_exp.py:41-46 | when no present value follows a missing one, the as-written points are the aligned ones |
| LogAnalysis.AlignedPoints | plot_mamba_exp.py:41-46 | one point per present value, each with the frame count of its own row |
| LogAnalysis.AlignedPointsAreRows | plot_mamba_exp.py:41-46 | every aligned point is a distinct row of the log, in row order |
| LogAnalysis.CurveShape | plot_mamba_exp.py:36-54 | a curve is drawn iff the log exists and has the panel's columns; it carries the experiment's label and colour, one point per present value, drawn as the script pairs them (the k-th present value at the k-th row's frame count), and a reward band iff there are more than one reward |
| LogAnalysis.SurvivorsInOrder | plot_mamba_exp.py:113-135 | a try/except loop collects results for a subsequence of the experiments, in order |
| LogAnalysis.SurvivorsIsolation | plot_mamba_exp.py:113-135 | error isolation: the results over two runs of experiments are the results over each run, concatenated |
| LogAnalysis.SurvivorsSucceeded | plot_mamba_exp.py:113-135 | every collected result is some experiment's successful attempt |
| LogAnalysis.PanelLegendInOrder | plot_mamba_exp.py:36-59 | a panel's legend lists a subsequence of the experiments in their order |
| LogAnalysis.Cv | plot_mamba_exp.py:124-126 | the CV is 0 on a zero mean and std / abs(mean) * 100 otherwise; a NaN mean or std gives NaN |
| LogAnalysis.Abs | plot_mamba_exp.py:124 | abs is non-negative and equals x or -x |
| LogAnalysis.Capped | plot_mamba_exp.py:132 | min(cv, 250) is at most 250, keeps smaller CVs and keeps NaN |
| LogAnalysis.StabilityOf | plot_mamba_exp.py:114-133 | an entry is made iff the log exists with EPOCH and the three metric columns; it names the experiment; its reward and value-loss CVs are those of the present values of their columns, and its advantages CV is that of its column capped by min(cv, 250), so at most 250 or NaN |
| LogAnalysis.BuildStabilityData | plot_mamba_exp.py:113-135 | the appending loop builds the stability data of the experiments |
| LogAnalysis.StabilityDataShape | plot_mamba_exp.py:113-135 | stability_data names a subsequence of the experiments, in order; every advantages CV in it is at most 250 or NaN |
| LogAnalysis.FigurePath | plot_mamba_exp.py:10-16 | the script proceeds iff it gets exactly an input and an output folder; the figure file is then the output folder joined with the figure's name |
| LogAnalysis.ConvergenceWindow | plot_mamba_exp.py:183-185 | the window exists iff n > 5, is max(1, n // 5) and lies within 1..n |
| LogAnalysis.UnguardedCv | plot_mamba_exp.py:176-180 | the printed CV is finite iff the mean is a non-zero number and the std is one; then it agrees with the panel's CV |
| LogAnalysis.SummaryShape | plot_mamba_exp.py:165-189 | the summary fails exactly where the stability entry does; each line is printed iff its series is non-empty; a zero mean prints a non-finite CV where the panel shows 0; the convergence line measures the last n // 5 rewards |
| KanPlot.StrLeTotal | plot_kan_exp.py:33 | any two strings are comparable in Python's order |
| KanPlot.Insert | plot_kan_exp.py:33 | insertion into a sorted list keeps it sorted and adds exactly the element |
| KanPlot.SortStrings | plot_kan_exp.py:33 | sort yields the same names in ascending order |
| KanPlot.CandidatePaths | plot_kan_exp.py:38-43 | four candidate paths per subdirectory, the i-th being the subdirectory joined with the i-th log pattern |
| KanPlot.FirstMatch | plot_kan_exp.py:46-50 | the chosen pattern is the first with any glob match; none when no pattern matches |
| KanPlot.ChooseLogFile | plot_kan_exp.py:45-50 | the break-on-first-match loop picks the first match of the first matching pattern |
| KanPlot.FirstMatchDecides | plot_kan_exp.py:46-50 | once a pattern matches, what later patterns match is never consulted |
| KanPlot.CollectExperiments | plot_kan_exp.py:35-55 | the loop, with color_idx counting the experiments appended so far, builds the experiments found over the subdirectories |
| KanPlot.FindAllExperiments | plot_kan_exp.py:25-57 | find_all_experiments collects the experiments of the sorted subdirectories |
| KanPlot.FoundInOrder | plot_kan_exp.py:33-53 | the experiments keep the sorted order of the subdirectories |
| KanPlot.FoundExactly | plot_kan_exp.py:52-55 | a subdirectory appears iff it has a usable log |
| KanPlot.FoundEntries | plot_kan_exp.py:52-54 | the k-th experiment carries its subdirectory's log and palette colour k mod 10 |
| KanPlot.FirstTenColorsDistinct | plot_kan_exp.py:28-54 | the first ten experiments found get ten different colours |
| MambaPlot.Experiments | plot_mamba_exp.py:22-28 | exactly five experiments, with the table's names, colours and log paths under the input folder |
| MambaPlot.TableFoldersRelative | plot_mamba_exp.py:23-27 | every run folder is a relative path |
| MambaPlot.JoinedLog | plot_mamba_exp.py:23 | a relative run folder's log lies under the input folder and ends with the log file |
| MambaPlot.ExperimentPaths | plot_mamba_exp.py:22-28 | every log path lies under the input folder and ends with A1MoveGround/0/log.csv |
| MambaPlot.TableDistinct | plot_mamba_exp.py:22-28 | the table has five different names and five different colours |
| MambaPlot.ExperimentsDistinct | plot_mamba_exp.py:22-28 | the experiments have different names and different colours |

## Left out

- File and JSON I/O, `os.makedirs`, `Path.glob`, `os.listdir`, `os.path.isdir` and `glob.glob` are inputs:
  - the enumerated files;
  - a map from path to parsed document or log table;
  - a set of directories;
  - a map from pattern to its matches.

  `os.makedirs('')`, raised for a bare output file name, is modelled; other makedirs and write failures are not.
- The converter enumerates files in an unspecified order. The model takes that order as given and does not model JSON key order or indentation.
- Printing is not modelled: progress messages, usage text, error messages and the summary lines' formatting.
- Standard deviation and mean are parameters of the analysis. The rolling standard deviation of the reward band, pandas' float64 arithmetic and matplotlib rendering are left out. The bar chart is represented only by the stability data it draws.
- `fill_between` needs the band's series to match the truncated frame column in length; that check is not modelled. Neither is pandas' index alignment of `values - std`.
- In starter/ppo_locomamba.py, the model leaves out:
  - environment construction;
  - seeding;
  - the encoder, logger, replay buffer, collector and PPO agent;
  - the `general_setting` entries;
  - the device string.

  The encoder's visual_dim and CUDA availability are parameters. `networks.MLPBase` is stood in for by a string value.
- The import check of test_mamba_config.py is a boolean parameter.
- tests/test_mamba_replacement.py and tests/check_mamba_requirements.py are not part of this model. They run GPU forward passes and probe the environment.
- Launcher.PlanExperiment: `params` is a value, so the plan shows only that the net section is copied before editing. The in-place stores into `params` are not returned.

## Findings

| source | as written | input that shows it | evidently intended | confidence | as-written member | corrected member |
|---|---|---|---|---|---|---|
| plot_mamba_exp.py:41-46 (also 69-74, 93-98; plot_kan_exp.py:73-78) | `samples[:len(metric.dropna())]` pairs the first n frame counts with the n present values, so a missing value before a present one shifts every later point to an earlier row | frames [1, 2], rewards [NaN, 5]: the plot draws (1, 5) | each present value drawn at its own row's frame count: (2, 5) | not executed | LogAnalysis.AsWrittenPoints (LogAnalysis.AsWrittenMisaligns) | LogAnalysis.AlignedPoints (LogAnalysis.AlignedPointsAreRows) |
