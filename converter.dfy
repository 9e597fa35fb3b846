/**
 * tests/convert_transformer_to_mamba_config.py: rewrite every JSON config
 * under an input directory so that `net.transformer_params` becomes
 * `net.mamba_params`, mirroring the relative paths under an output root.
 *
 * File I/O is abstracted: a file's content is the document json.load
 * returned, or None when opening or parsing failed; the directory is the
 * sequence of files the recursive glob enumerates, each with its path
 * relative to the input root; what is written is a map from output paths
 * to documents.
 */
module Converter {
  import opened Wrappers
  import opened Json
  import opened MambaParams

  const DefaultVisualDim: int := 256

  /** A pathlib path as its sequence of components. */
  type Path = seq<string>

  datatype JsonFile = JsonFile(rel: Path, content: Option<Json>)

  /** convert_config_file's three endings: True after writing, False, or an exception. */
  datatype Outcome = Converted(doc: Json) | NotConverted | Failed(error: PyError)

  /** config.get("encoder", {}).get("visual_dim", 256) */
  function VisualDim(config: Json): (r: Result<Json, PyError>)
    requires config.JObj?
    ensures "encoder" !in config.fields ==> r == Ok(JInt(DefaultVisualDim))
    ensures "encoder" in config.fields && config.fields["encoder"].JObj? ==>
      r == Ok(if "visual_dim" in config.fields["encoder"].fields
              then config.fields["encoder"].fields["visual_dim"]
              else JInt(DefaultVisualDim))
    ensures "encoder" in config.fields && !config.fields["encoder"].JObj? ==> r == Err(AttributeError)
  {
    match Get(config, "encoder", JObj(map[]))
    case Err(e) => Err(e)
    case Ok(encoder) => Get(encoder, "visual_dim", JInt(DefaultVisualDim))
  }

  /** The in-place edit of lines 45-46: set net.mamba_params, then delete net.transformer_params. */
  function Rewrite(config: Json, mambaParams: seq<Json>): Json
    requires config.JObj? && "net" in config.fields && config.fields["net"].JObj?
  {
    var net := config.fields["net"].fields;
    JObj(config.fields["net" := JObj(net["mamba_params" := JArr(mambaParams)] - {"transformer_params"})])
  }

  /** The body of convert_config_file after json.load: Some(document to write) when
      converted, None when the config has no net.transformer_params. */
  function Conversion(config: Json): Result<Option<Json>, PyError> {
    var hasNet :- Contains(config, "net");
    if !hasNet then Ok(None)
    else
      var net :- Subscript(config, "net");
      var hasTransformer :- Contains(net, "transformer_params");
      if !hasTransformer then Ok(None)
      else
        var visualDim :- VisualDim(config);
        var transformerParams :- Subscript(net, "transformer_params");
        var mambaParams :- MambaParamsFor(transformerParams, visualDim);
        Ok(Some(Rewrite(config, mambaParams)))
  }

  function ConfigOutcome(content: Option<Json>): Outcome {
    match content
    case None => Failed(LoadError)
    case Some(config) =>
      match Conversion(config)
      case Ok(Some(doc)) => Converted(doc)
      case Ok(None) => NotConverted
      case Err(e) => Failed(e)
  }

  /** os.path.dirname of an output file: every component but the last. */
  function Parent(p: Path): (r: Path)
    ensures p != [] ==> |r| == |p| - 1 && p == r + [p[|p| - 1]]
  {
    if p == [] then [] else p[..|p| - 1]
  }

  /** os.makedirs(dir, exist_ok=True): an existing or creatable directory succeeds, the
      empty path '' raises FileNotFoundError. */
  function MakeDirs(dir: Path): (r: Result<(), PyError>)
    ensures r.Err? <==> dir == []
    ensures r.Err? ==> r.error == FileNotFoundError
  {
    if dir == [] then Err(FileNotFoundError) else Ok(())
  }

  /** The whole of convert_config_file: the conversion, then creating the output file's
      directory before the write, which fails when that directory is ''. */
  function FileOutcome(content: Option<Json>, outputFile: Path): (r: Outcome)
    ensures r.Converted? <==> ConfigOutcome(content).Converted? && Parent(outputFile) != []
    ensures r.Converted? ==> r == ConfigOutcome(content)
    ensures ConfigOutcome(content).Converted? && Parent(outputFile) == [] ==> r == Failed(FileNotFoundError)
    ensures !ConfigOutcome(content).Converted? ==> r == ConfigOutcome(content)
  {
    match ConfigOutcome(content)
    case Converted(doc) =>
      (match MakeDirs(Parent(outputFile))
       case Err(e) => Failed(e)
       case Ok(_) => Converted(doc))
    case other => other
  }

  /** convert_config_file: load, test, convert, edit the loaded dict in place, then
      create the output directory. */
  method ConvertConfigFile(content: Option<Json>, outputFile: Path) returns (outcome: Outcome)
    ensures outcome == FileOutcome(content, outputFile)
  {
    if content.None? {
      return Failed(LoadError);
    }
    var config := content.value;
    var hasNet := Contains(config, "net");
    if hasNet.Err? {
      return Failed(hasNet.error);
    }
    if !hasNet.value {
      return NotConverted;
    }
    var netLookup := Subscript(config, "net");
    if netLookup.Err? {
      return Failed(netLookup.error);
    }
    var hasTransformer := Contains(netLookup.value, "transformer_params");
    if hasTransformer.Err? {
      return Failed(hasTransformer.error);
    }
    if !hasTransformer.value {
      return NotConverted;
    }
    var visualDim := VisualDim(config);
    if visualDim.Err? {
      return Failed(visualDim.error);
    }
    var transformerParams := Subscript(netLookup.value, "transformer_params");
    if transformerParams.Err? {
      return Failed(transformerParams.error);
    }
    var mambaParams := ConvertParams(transformerParams.value, visualDim.value);
    if mambaParams.Err? {
      return Failed(mambaParams.error);
    }
    var net := netLookup.value.fields;
    net := net["mamba_params" := JArr(mambaParams.value)];
    net := net - {"transformer_params"};
    var fields := config.fields["net" := JObj(net)];
    var made := MakeDirs(Parent(outputFile));
    if made.Err? {
      return Failed(made.error);
    }
    outcome := Converted(JObj(fields));
  }

  /** A successful conversion yields exactly one entry per iterated element. */
  lemma MambaParamsForShape(transformerParams: Json, visualDim: Json)
    requires MambaParamsFor(transformerParams, visualDim).Ok?
    ensures Len(transformerParams).Ok?
    ensures MambaParamsFor(transformerParams, visualDim).value
         == Repeat(MambaEntry(visualDim), Len(transformerParams).value)
  {
    match transformerParams {
      case JArr(s) => ParamsShape(s, visualDim);
      case JStr(s) => ParamsShape(CharItems(s), visualDim);
      case JObj(m) =>
    }
  }

  /** After a conversion: net holds mamba_params (one constant entry per transformer
      layer) and no transformer_params; every other key, in net and at the top level,
      keeps its value. */
  lemma ConvertedShape(config: Json, doc: Json)
    requires Conversion(config) == Ok(Some(doc))
    ensures config.JObj? && "net" in config.fields && config.fields["net"].JObj?
    ensures "transformer_params" in config.fields["net"].fields
    ensures doc.JObj? && doc.fields.Keys == config.fields.Keys
    ensures forall k :: k in config.fields && k != "net" ==> doc.fields[k] == config.fields[k]
    ensures doc.fields["net"].JObj?
    ensures doc.fields["net"].fields.Keys
         == config.fields["net"].fields.Keys - {"transformer_params"} + {"mamba_params"}
    ensures forall k :: k in config.fields["net"].fields && k != "transformer_params" && k != "mamba_params"
              ==> doc.fields["net"].fields[k] == config.fields["net"].fields[k]
    ensures VisualDim(config).Ok?
    ensures Len(config.fields["net"].fields["transformer_params"]).Ok?
    ensures doc.fields["net"].fields["mamba_params"]
         == JArr(Repeat(MambaEntry(VisualDim(config).value),
                        Len(config.fields["net"].fields["transformer_params"]).value))
  {
    ConversionSteps(config, doc);
    var transformerParams := config.fields["net"].fields["transformer_params"];
    RewriteShape(config, MambaParamsFor(transformerParams, VisualDim(config).value).value);
    MambaParamsForShape(transformerParams, VisualDim(config).value);
  }

  /** A conversion that produces a document passed every lookup on the way. */
  lemma ConversionSteps(config: Json, doc: Json)
    requires Conversion(config) == Ok(Some(doc))
    ensures config.JObj? && "net" in config.fields && config.fields["net"].JObj?
    ensures "transformer_params" in config.fields["net"].fields
    ensures VisualDim(config).Ok?
    ensures MambaParamsFor(config.fields["net"].fields["transformer_params"], VisualDim(config).value).Ok?
    ensures doc == Rewrite(config, MambaParamsFor(config.fields["net"].fields["transformer_params"],
                                                  VisualDim(config).value).value)
  {
    assert Subscript(config, "net").Ok?;
    assert Subscript(config.fields["net"], "transformer_params").Ok?;
  }

  /** The edit sets net.mamba_params, removes net.transformer_params and keeps every
      other key. */
  lemma RewriteShape(config: Json, mambaParams: seq<Json>)
    requires config.JObj? && "net" in config.fields && config.fields["net"].JObj?
    ensures var doc := Rewrite(config, mambaParams);
      && doc.JObj? && doc.fields.Keys == config.fields.Keys
      && (forall k :: k in config.fields && k != "net" ==> doc.fields[k] == config.fields[k])
      && doc.fields["net"].JObj?
      && doc.fields["net"].fields.Keys
         == config.fields["net"].fields.Keys - {"transformer_params"} + {"mamba_params"}
      && (forall k :: k in config.fields["net"].fields && k != "transformer_params" && k != "mamba_params"
            ==> doc.fields["net"].fields[k] == config.fields["net"].fields[k])
      && doc.fields["net"].fields["mamba_params"] == JArr(mambaParams)
  {
  }

  /** A converted document has nothing left to convert: re-running skips it. */
  lemma {:induction false} ReconversionSkips(config: Json, doc: Json)
    requires Conversion(config) == Ok(Some(doc))
    ensures Conversion(doc) == Ok(None)
  {
    ConvertedShape(config, doc);
  }

  /** A dict config without net, or whose net dict lacks transformer_params, is
      reported as not converted and nothing is written. */
  lemma MissingSectionNotConverted(config: Json)
    requires config.JObj?
    requires "net" !in config.fields
          || (config.fields["net"].JObj? && "transformer_params" !in config.fields["net"].fields)
    ensures ConfigOutcome(Some(config)) == NotConverted
  {
  }

  /** Example: {"net": {"transformer_params": [[4, 256]]}, "encoder": {"visual_dim": 128}}
      becomes {"net": {"mamba_params": [[128, 16, 4, 2]]}, "encoder": {"visual_dim": 128}}. */
  lemma ExampleConversion()
    ensures
      var encoder := JObj(map["visual_dim" := JInt(128)]);
      var config := JObj(map["net" := JObj(map["transformer_params" := JArr([JArr([JInt(4), JInt(256)])])]),
                             "encoder" := encoder]);
      ConfigOutcome(Some(config))
        == Converted(JObj(map["net" := JObj(map["mamba_params" := JArr([JArr([JInt(128), JInt(16), JInt(4), JInt(2)])])]),
                              "encoder" := encoder]))
  {
    var encoder := JObj(map["visual_dim" := JInt(128)]);
    var net := map["transformer_params" := JArr([JArr([JInt(4), JInt(256)])])];
    var config := JObj(map["net" := JObj(net), "encoder" := encoder]);
    var pair := JArr([JInt(4), JInt(256)]);
    ParamsAllUnpack([pair], JInt(128));
    assert Repeat(MambaEntry(JInt(128)), 1) == [MambaEntry(JInt(128))];
    assert MambaParamsFor(JArr([pair]), JInt(128)) == Ok([MambaEntry(JInt(128))]);
    assert VisualDim(config) == Ok(JInt(128));
    assert net["mamba_params" := JArr([MambaEntry(JInt(128))])] - {"transformer_params"}
        == map["mamba_params" := JArr([MambaEntry(JInt(128))])];
    assert Conversion(config) == Ok(Some(Rewrite(config, [MambaEntry(JInt(128))])));
    var newNet := JObj(map["mamba_params" := JArr([MambaEntry(JInt(128))])]);
    assert Rewrite(config, [MambaEntry(JInt(128))]) == JObj(config.fields["net" := newNet]);
    assert config.fields["net" := newNet] == map["net" := newNet, "encoder" := encoder];
  }

  // ---------------------------------------------------------------------------
  // convert_directory

  /** Number of files whose conversion returned True. */
  function ConvertedCount(outRoot: Path, files: seq<JsonFile>): (n: nat)
    ensures n <= |files|
    decreases |files|
  {
    if files == [] then 0
    else
      var last := files[|files| - 1];
      ConvertedCount(outRoot, files[..|files| - 1])
        + if FileOutcome(last.content, OutputPath(outRoot, last.rel)).Converted? then 1 else 0
  }

  /** The output file of one input: the output root joined with its relative path. */
  function OutputPath(outRoot: Path, rel: Path): (p: Path)
    ensures |outRoot| <= |p| && p[..|outRoot|] == outRoot && p[|outRoot|..] == rel
  {
    outRoot + rel
  }

  /** Distinct relative paths land on distinct output paths. */
  lemma OutputPathInjective(outRoot: Path, a: Path, b: Path)
    ensures OutputPath(outRoot, a) == OutputPath(outRoot, b) ==> a == b
  {
  }

  /** What the loop writes: each converted file's document at its mirrored path
      (in enumeration order, so a later write to the same path wins). */
  function Outputs(outRoot: Path, files: seq<JsonFile>): map<Path, Json>
    decreases |files|
  {
    if files == [] then map[]
    else
      var last := files[|files| - 1];
      var earlier := Outputs(outRoot, files[..|files| - 1]);
      match FileOutcome(last.content, OutputPath(outRoot, last.rel))
      case Converted(doc) => earlier[OutputPath(outRoot, last.rel) := doc]
      case _ => earlier
  }

  /** convert_directory: a missing input directory fails before any file is read;
      otherwise every enumerated file is tried, a failure on one never stops the loop,
      and the result is whether at least one file was converted. */
  method ConvertDirectory(inputExists: bool, files: seq<JsonFile>, outRoot: Path)
    returns (success: bool, converted: nat, total: nat, written: map<Path, Json>)
    ensures !inputExists ==> !success && converted == 0 && total == 0 && written == map[]
    ensures inputExists ==> total == |files| && converted == ConvertedCount(outRoot, files)
    ensures inputExists ==> written == Outputs(outRoot, files)
    ensures success <==> converted > 0
    ensures converted <= total
  {
    if !inputExists {
      return false, 0, 0, map[];
    }
    converted, total, written := ConvertFiles(files, outRoot);
    success := converted > 0;
  }

  /** The loop of convert_directory: every enumerated file is counted and tried, each
      conversion that returns True is counted, and an exception is caught so that the
      loop carries on with the next file. */
  method ConvertFiles(files: seq<JsonFile>, outRoot: Path)
    returns (converted: nat, total: nat, written: map<Path, Json>)
    ensures total == |files| && converted == ConvertedCount(outRoot, files)
    ensures written == Outputs(outRoot, files)
  {
    written := map[];
    converted, total := 0, 0;
    for i := 0 to |files|
      invariant total == i
      invariant converted == ConvertedCount(outRoot, files[..i])
      invariant written == Outputs(outRoot, files[..i])
    {
      total := total + 1;
      var outputFile := OutputPath(outRoot, files[i].rel);
      var outcome := ConvertConfigFile(files[i].content, outputFile);
      DirectoryStep(outRoot, files, i, outcome);
      if outcome.Converted? {
        written := written[outputFile := outcome.doc];
        converted := converted + 1;
      }
    }
    assert files[..|files|] == files;
  }

  /** One more file: the count and the writes grow by that file's own outcome. */
  lemma DirectoryStep(outRoot: Path, files: seq<JsonFile>, i: nat, outcome: Outcome)
    requires i < |files| && outcome == FileOutcome(files[i].content, OutputPath(outRoot, files[i].rel))
    ensures
      && ConvertedCount(outRoot, files[..i + 1])
         == ConvertedCount(outRoot, files[..i]) + (if outcome.Converted? then 1 else 0)
      && Outputs(outRoot, files[..i + 1])
         == (if outcome.Converted? then Outputs(outRoot, files[..i])[OutputPath(outRoot, files[i].rel) := outcome.doc]
             else Outputs(outRoot, files[..i]))
  {
    assert files[..i + 1][..i] == files[..i];
  }

  ghost predicate DistinctPaths(files: seq<JsonFile>) {
    forall i, j :: 0 <= i < j < |files| ==> files[i].rel != files[j].rel
  }

  /** Each file's output depends on that file alone: a converted file is written at
      its mirrored path with its own converted document, an unconverted one is not
      written. */
  lemma {:induction false} OutputOf(outRoot: Path, files: seq<JsonFile>, i: nat)
    requires DistinctPaths(files) && i < |files|
    ensures FileOutcome(files[i].content, OutputPath(outRoot, files[i].rel)).Converted? ==>
      OutputPath(outRoot, files[i].rel) in Outputs(outRoot, files) &&
      Outputs(outRoot, files)[OutputPath(outRoot, files[i].rel)] == ConfigOutcome(files[i].content).doc
    ensures !FileOutcome(files[i].content, OutputPath(outRoot, files[i].rel)).Converted? ==>
      OutputPath(outRoot, files[i].rel) !in Outputs(outRoot, files)
    decreases |files|
  {
    var n := |files| - 1;
    var init := files[..n];
    if i < n {
      assert forall a :: 0 <= a < n ==> init[a] == files[a];
      OutputOf(outRoot, init, i);
      assert files[i].rel != files[n].rel;
      OutputPathInjective(outRoot, files[i].rel, files[n].rel);
    } else {
      OutputsOnlyMirrored(outRoot, init);
      forall j | 0 <= j < n
        ensures OutputPath(outRoot, init[j].rel) != OutputPath(outRoot, files[n].rel)
      {
        assert init[j] == files[j];
        assert files[j].rel != files[n].rel;
        OutputPathInjective(outRoot, init[j].rel, files[n].rel);
      }
      assert OutputPath(outRoot, files[n].rel) !in Outputs(outRoot, init);
    }
  }

  /** Nothing but mirrored paths of input files is written. */
  lemma {:induction false} OutputsOnlyMirrored(outRoot: Path, files: seq<JsonFile>)
    ensures forall p :: p in Outputs(outRoot, files) ==>
      exists i :: 0 <= i < |files| && p == OutputPath(outRoot, files[i].rel)
    decreases |files|
  {
    if files != [] {
      var n := |files| - 1;
      var init := files[..n];
      OutputsOnlyMirrored(outRoot, init);
      forall p | p in Outputs(outRoot, files)
        ensures exists i :: 0 <= i < |files| && p == OutputPath(outRoot, files[i].rel)
      {
        if p != OutputPath(outRoot, files[n].rel) {
          assert p in Outputs(outRoot, init);
          var i :| 0 <= i < n && p == OutputPath(outRoot, init[i].rel);
          assert init[i] == files[i];
        }
      }
    }
  }

  /** With the output root "." (or ""), a file at the top of the input directory has a
      bare output name: its conversion succeeds but creating the directory '' raises,
      so nothing is written for it and it is not counted as converted. */
  lemma TopLevelUnderCurrentDirectory(files: seq<JsonFile>, i: nat)
    requires DistinctPaths(files) && i < |files| && |files[i].rel| == 1
    ensures ConfigOutcome(files[i].content).Converted? ==>
      FileOutcome(files[i].content, OutputPath([], files[i].rel)) == Failed(FileNotFoundError)
    ensures OutputPath([], files[i].rel) !in Outputs([], files)
  {
    assert Parent(OutputPath([], files[i].rel)) == [];
    OutputOf([], files, i);
  }

  /** Under any other output root, or for a file in a sub-directory, the directory to
      create is not empty and the file's outcome is that of its conversion. */
  lemma NestedOutputSaved(content: Option<Json>, outRoot: Path, rel: Path)
    requires rel != [] && (outRoot != [] || |rel| >= 2)
    ensures FileOutcome(content, OutputPath(outRoot, rel)) == ConfigOutcome(content)
  {
    assert |Parent(OutputPath(outRoot, rel))| == |outRoot| + |rel| - 1;
  }

  /** A dict whose net section is a dict without transformer_params: the shape every
      conversion leaves behind. */
  predicate WithoutTransformerSection(doc: Json) {
    doc.JObj? && "net" in doc.fields && doc.fields["net"].JObj?
    && "transformer_params" !in doc.fields["net"].fields
  }

  /** Every converted document has that shape. */
  lemma ConvertedWithoutTransformerSection(config: Json, doc: Json)
    requires Conversion(config) == Ok(Some(doc))
    ensures WithoutTransformerSection(doc)
  {
    ConvertedShape(config, doc);
  }

  /** Re-running the converter over its own output converts nothing. */
  lemma {:induction false} RerunConvertsNothing(outRoot: Path, files: seq<JsonFile>)
    requires forall i :: 0 <= i < |files| ==>
      files[i].content.Some? && WithoutTransformerSection(files[i].content.value)
    ensures ConvertedCount(outRoot, files) == 0
    decreases |files|
  {
    if files != [] {
      var n := |files| - 1;
      MissingSectionNotConverted(files[n].content.value);
      assert forall i :: 0 <= i < n ==> files[..n][i] == files[i];
      RerunConvertsNothing(outRoot, files[..n]);
    }
  }

  /** main: usage error without two arguments, else 0 exactly when some file converted. */
  method ConverterMain(argv: seq<string>, inputExists: bool, files: seq<JsonFile>, outRoot: Path)
    returns (exitCode: int, written: map<Path, Json>)
    ensures exitCode == 0 || exitCode == 1
    ensures exitCode == 0 <==> |argv| >= 3 && inputExists && ConvertedCount(outRoot, files) > 0
    ensures |argv| < 3 ==> written == map[]
    ensures |argv| >= 3 && inputExists ==> written == Outputs(outRoot, files)
  {
    if |argv| < 3 {
      return 1, map[];
    }
    var success, converted, total;
    success, converted, total, written := ConvertDirectory(inputExists, files, outRoot);
    exitCode := if success then 0 else 1;
  }
}
