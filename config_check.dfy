/**
 * tests/test_mamba_config.py: load four fixed config files and check that
 * each has the keys a Mamba run needs; stop at the first failure. `main`
 * combines that check with an import check of framework classes.
 *
 * The file system is a map from path to the document json.load returns; a
 * path that is absent could not be opened or parsed. The import check is a
 * parameter.
 */
module ConfigCheck {
  import opened Wrappers
  import opened Json
  import Converter

  const ConfigsToTest: seq<string> := [
    "configs/example_mamba_config.json",
    "config/mamba/static/thin.json",
    "config/mamba/moving/thin.json",
    "config/mamba/challenge/stairs.json"
  ]

  /** `assert key in container`, with the TypeError `in` raises on a scalar. */
  function AssertIn(container: Json, key: string): Result<(), PyError> {
    var present :- Contains(container, key);
    if present then Ok(()) else Err(AssertionError)
  }

  /** The try-block for one loaded config, step by step: the five assertions, then the
      lookups of the two report lines; the result is the reported layer count. */
  function CheckConfig(config: Json): Result<nat, PyError> {
    var _ :- AssertIn(config, "env_name");
    var _ :- AssertIn(config, "env");
    var env :- Subscript(config, "env");
    var _ :- AssertIn(env, "env_build");
    var _ :- AssertIn(config, "net");
    var net :- Subscript(config, "net");
    var _ :- AssertIn(net, "mamba_params");
    var _ :- Subscript(config, "env_name");
    var mambaParams :- Subscript(net, "mamba_params");
    Len(mambaParams)
  }

  /** The required keys, stated declaratively: a dict with env_name, env and net; env
      answers `"env_build" in env`; net is a dict whose mamba_params has a length. */
  predicate HasRequiredKeys(config: Json) {
    && config.JObj?
    && "env_name" in config.fields
    && "env" in config.fields
    && Contains(config.fields["env"], "env_build") == Ok(true)
    && "net" in config.fields
    && config.fields["net"].JObj?
    && "mamba_params" in config.fields["net"].fields
    && Len(config.fields["net"].fields["mamba_params"]).Ok?
  }

  /** A config passes exactly when it has the required keys, and the layer count it
      reports is the length of net.mamba_params. */
  lemma CheckConfigIff(config: Json)
    ensures CheckConfig(config).Ok? <==> HasRequiredKeys(config)
    ensures CheckConfig(config).Ok? ==>
      CheckConfig(config).value == Len(config.fields["net"].fields["mamba_params"]).value
  {
    if CheckConfig(config).Ok? {
      assert Subscript(config, "env").Ok?;
      assert config.JObj?;
      var net := Subscript(config, "net");
      assert net.Ok?;
      assert Subscript(net.value, "mamba_params").Ok?;
    }
  }

  /** Every converted config that already had env_name and a dict env with env_build
      passes the check, and reports as many layers as the transformer list had. */
  lemma ConvertedConfigPasses(config: Json, doc: Json)
    requires Converter.Conversion(config) == Ok(Some(doc))
    requires config.JObj? && "env_name" in config.fields && "env" in config.fields
    requires config.fields["env"].JObj? && "env_build" in config.fields["env"].fields
    ensures Len(config.fields["net"].fields["transformer_params"]).Ok?
    ensures CheckConfig(doc) == Ok(Len(config.fields["net"].fields["transformer_params"]).value)
  {
    Converter.ConvertedShape(config, doc);
    CheckConfigIff(doc);
  }

  /** Opening and parsing one file, then checking it. */
  function CheckFile(fs: map<string, Json>, path: string): Result<nat, PyError> {
    if path in fs then CheckConfig(fs[path]) else Err(LoadError)
  }

  /** test_config_loading: True exactly when all four configs pass; the first failing one
      ends the loop, so the reported layer counts are those of the configs before it. */
  method TestConfigLoading(fs: map<string, Json>) returns (ok: bool, layerCounts: seq<nat>)
    ensures ok <==> forall i :: 0 <= i < |ConfigsToTest| ==> CheckFile(fs, ConfigsToTest[i]).Ok?
    ensures |layerCounts| <= |ConfigsToTest|
    ensures forall i :: 0 <= i < |layerCounts| ==> CheckFile(fs, ConfigsToTest[i]) == Ok(layerCounts[i])
    ensures ok ==> |layerCounts| == |ConfigsToTest|
    ensures !ok ==> |layerCounts| < |ConfigsToTest| && CheckFile(fs, ConfigsToTest[|layerCounts|]).Err?
  {
    layerCounts := [];
    for i := 0 to |ConfigsToTest|
      invariant |layerCounts| == i
      invariant forall j :: 0 <= j < i ==> CheckFile(fs, ConfigsToTest[j]) == Ok(layerCounts[j])
    {
      var result := CheckFile(fs, ConfigsToTest[i]);
      if result.Err? {
        return false, layerCounts;
      }
      layerCounts := layerCounts + [result.value];
    }
    return true, layerCounts;
  }

  /** main: both checks run (`success &= ...` does not short-circuit), the result is their
      conjunction, and the process exit code is 0 exactly on success. */
  method TestMain(fs: map<string, Json>, importsOk: bool) returns (success: bool, exitCode: int)
    ensures success <==> importsOk && forall i :: 0 <= i < |ConfigsToTest| ==> CheckFile(fs, ConfigsToTest[i]).Ok?
    ensures exitCode == (if success then 0 else 1)
  {
    success := true;
    var configsOk, _ := TestConfigLoading(fs);
    success := success && configsOk;
    success := success && importsOk;
    exitCode := if success then 0 else 1;
  }
}
