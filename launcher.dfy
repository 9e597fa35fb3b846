/**
 * starter/ppo_locomamba.py, function `experiment`: the decisions it makes
 * before handing over to the training framework. It requires CUDA and forces
 * `args.cuda`; it sizes the evaluation environment; it names the experiment
 * after the config file; it builds `net_params` from a shallow copy of
 * `params["net"]`, where transformer_params are rewritten to mamba_params
 * and a one-layer default is used otherwise; and it passes those
 * `net_params` to both the policy and the value network.
 *
 * The environments, encoder, logger, replay buffer, collector and PPO agent
 * are framework objects. The encoder's `visual_dim` is a parameter, and
 * whether CUDA is available is another.
 */
module Launcher {
  import opened Wrappers
  import opened Json
  import opened MambaParams
  import opened PosixPath

  /** The parsed command line; `experiment` assigns only `cuda`. */
  class Args {
    const config: string
    const id: Option<string>
    var cuda: bool
    const vecEnvNums: int
    const procNums: int

    constructor (config: string, id: Option<string>, cuda: bool, vecEnvNums: int, procNums: int)
      ensures this.config == config && this.id == id && this.cuda == cuda
      ensures this.vecEnvNums == vecEnvNums && this.procNums == procNums
    {
      this.config := config;
      this.id := id;
      this.cuda := cuda;
      this.vecEnvNums := vecEnvNums;
      this.procNums := procNums;
    }
  }

  /** The CUDA gate: without CUDA the run raises RuntimeError; with it, `args.cuda` is
      forced on. */
  method RequireCuda(args: Args, cudaAvailable: bool) returns (r: Result<(), PyError>)
    modifies args
    ensures !cudaAvailable ==> r == Err(RuntimeError) && args.cuda == old(args.cuda)
    ensures cudaAvailable ==> r == Ok(()) && args.cuda
  {
    if !cudaAvailable {
      return Err(RuntimeError);
    }
    if !args.cuda {
      args.cuda := true;
    }
    return Ok(());
  }

  /** max(2, n): the evaluation environment's env count and process count. */
  function EvalCount(n: int): (r: int)
    ensures r >= 2 && r >= n
    ensures r == 2 || r == n
  {
    if n > 2 then n else 2
  }

  /** The experiment name: `args.id` when given, else the config file's final path
      component without its extension. */
  function ExperimentName(config: string, id: Option<string>): (name: string)
    ensures id.Some? ==> name == id.value
    ensures id.None? ==> name + SplitExt(config).1 == Basename(config)
    ensures id.None? ==> forall j :: 0 <= j < |name| ==> name[j] != '/'
  {
    if id.None? then
      BasenameOfRoot(config);
      Basename(SplitExt(config).0)
    else id.value
  }

  /** The launcher's net_params: on a copy of the net section, transformer_params is
      replaced by converted mamba_params; without transformer_params, mamba_params is
      set to the single default layer, replacing any mamba_params already there. */
  function NetParams(net: map<string, Json>, visualDim: int): Result<map<string, Json>, PyError> {
    if "transformer_params" in net then
      var mambaParams :- MambaParamsFor(net["transformer_params"], JInt(visualDim));
      Ok(net["mamba_params" := JArr(mambaParams)] - {"transformer_params"})
    else
      Ok(net["mamba_params" := JArr([MambaEntry(JInt(visualDim))])])
  }

  /** Lines 102-123: copy, convert with the shared loop, edit the copy. */
  method BuildNetParams(net: map<string, Json>, visualDim: int) returns (r: Result<map<string, Json>, PyError>)
    ensures r == NetParams(net, visualDim)
  {
    var netParams := net;
    if "transformer_params" in netParams {
      var mambaParams := ConvertParams(netParams["transformer_params"], JInt(visualDim));
      if mambaParams.Err? {
        return Err(mambaParams.error);
      }
      netParams := netParams["mamba_params" := JArr(mambaParams.value)];
      netParams := netParams - {"transformer_params"};
    } else {
      netParams := netParams["mamba_params" := JArr([MambaEntry(JInt(visualDim))])];
    }
    return Ok(netParams);
  }

  /** net_params always ends with mamba_params and without transformer_params; the other
      keys keep their values; a converted list has one `(visual_dim, 16, 4, 2)` per
      transformer layer, and the default is exactly one such layer. */
  lemma NetParamsShape(net: map<string, Json>, visualDim: int)
    requires NetParams(net, visualDim).Ok?
    ensures NetParams(net, visualDim).value.Keys == net.Keys - {"transformer_params"} + {"mamba_params"}
    ensures forall k :: k in net && k != "transformer_params" && k != "mamba_params"
              ==> NetParams(net, visualDim).value[k] == net[k]
    ensures "transformer_params" in net ==>
      Len(net["transformer_params"]).Ok? &&
      NetParams(net, visualDim).value["mamba_params"]
        == JArr(Repeat(MambaEntry(JInt(visualDim)), Len(net["transformer_params"]).value))
    ensures "transformer_params" !in net ==>
      NetParams(net, visualDim).value["mamba_params"] == JArr([MambaEntry(JInt(visualDim))])
  {
    if "transformer_params" in net {
      var tp := net["transformer_params"];
      match tp {
        case JArr(s) => ParamsShape(s, JInt(visualDim));
        case JStr(s) => ParamsShape(CharItems(s), JInt(visualDim));
        case JObj(m) =>
      }
    }
  }

  /** A transformer list whose entries are all pairs always converts, and the result has
      the list's length. */
  lemma {:induction false} PairListConverts(net: map<string, Json>, visualDim: int)
    requires "transformer_params" in net && net["transformer_params"].JArr?
    requires forall i :: 0 <= i < |net["transformer_params"].items| ==>
      Len(net["transformer_params"].items[i]) == Ok(2)
    ensures NetParams(net, visualDim).Ok?
    ensures NetParams(net, visualDim).value["mamba_params"].JArr?
    ensures |NetParams(net, visualDim).value["mamba_params"].items| == |net["transformer_params"].items|
  {
    ParamsAllUnpack(net["transformer_params"].items, JInt(visualDim));
  }

  /** Names both network constructors receive explicitly, besides the ** expansions. */
  const ExplicitArgs: set<string> := {"encoder", "state_input_shape", "visual_input_shape", "output_shape"}

  /** The keyword arguments of `f(explicit..., **first, **second)`: a keyword supplied
      twice raises TypeError; otherwise every expanded key arrives with its value. */
  function CallKwargs(explicit: set<string>, first: map<string, Json>, second: map<string, Json>)
    : (r: Result<map<string, Json>, PyError>)
    ensures r.Ok? <==> first.Keys !! explicit && second.Keys !! (explicit + first.Keys)
    ensures r.Ok? ==> r.value.Keys == first.Keys + second.Keys
    ensures r.Ok? ==> forall k :: k in first ==> r.value[k] == first[k]
    ensures r.Ok? ==> forall k :: k in second ==> r.value[k] == second[k]
  {
    if first.Keys !! explicit && second.Keys !! (explicit + first.Keys) then Ok(first + second)
    else Err(TypeError)
  }

  /** Stand-in for the class object `networks.MLPBase`, which line 93 stores in the net
      section before it is copied. */
  const BaseTypeValue: Json := JStr("MLPBase")

  function WithBaseType(net: map<string, Json>): (r: map<string, Json>)
    ensures r.Keys == net.Keys + {"base_type"} && r["base_type"] == BaseTypeValue
    ensures forall k :: k in net && k != "base_type" ==> r[k] == net[k]
  {
    net["base_type" := BaseTypeValue]
  }

  /** What `experiment` sets up once the CUDA gate has passed. */
  datatype LaunchPlan = LaunchPlan(
    trainEnvs: int, trainProcs: int,
    evalEnvs: int, evalProcs: int,
    name: string,
    netParams: map<string, Json>,
    policyKwargs: map<string, Json>,
    valueKwargs: map<string, Json>)

  function Plan(config: string, id: Option<string>, vecEnvNums: int, procNums: int,
                params: map<string, Json>, visualDim: int): Result<LaunchPlan, PyError>
  {
    // params["net"]["base_type"] = ... needs a dict
    var net :- Subscript(JObj(params), "net");
    if !net.JObj? then Err(TypeError)
    else
      var netParams :- NetParams(WithBaseType(net.fields), visualDim);
      var policy :- Subscript(JObj(params), "policy");
      if !policy.JObj? then Err(TypeError)
      else
        var policyKwargs :- CallKwargs(ExplicitArgs, netParams, policy.fields);
        // the value network's call cannot clash once the policy's call did not
        var valueKwargs := CallKwargs(ExplicitArgs, netParams, map[]);
        assert valueKwargs.Ok?;
        Ok(LaunchPlan(vecEnvNums, procNums, EvalCount(vecEnvNums), EvalCount(procNums),
                      ExperimentName(config, id), netParams, policyKwargs, valueKwargs.value))
  }

  /** `experiment` up to the framework hand-over. The net section is copied before it
      is edited, so `params` itself is left as it was (it is a value here). */
  method PlanExperiment(args: Args, params: map<string, Json>, cudaAvailable: bool, visualDim: int)
    returns (r: Result<LaunchPlan, PyError>)
    modifies args
    ensures !cudaAvailable ==> r == Err(RuntimeError) && args.cuda == old(args.cuda)
    ensures cudaAvailable ==> args.cuda
    ensures cudaAvailable ==> r == Plan(args.config, args.id, args.vecEnvNums, args.procNums, params, visualDim)
  {
    var gate := RequireCuda(args, cudaAvailable);
    if gate.Err? {
      return Err(gate.error);
    }
    var evalEnvs, evalProcs := EvalCount(args.vecEnvNums), EvalCount(args.procNums);
    var name := ExperimentName(args.config, args.id);
    var net := Subscript(JObj(params), "net");
    if net.Err? {
      return Err(net.error);
    }
    if !net.value.JObj? {
      return Err(TypeError);
    }
    var netSection := net.value.fields;
    netSection := netSection["base_type" := BaseTypeValue];
    var netParams := BuildNetParams(netSection, visualDim);
    if netParams.Err? {
      return Err(netParams.error);
    }
    var policy := Subscript(JObj(params), "policy");
    if policy.Err? {
      return Err(policy.error);
    }
    if !policy.value.JObj? {
      return Err(TypeError);
    }
    var policyKwargs := CallKwargs(ExplicitArgs, netParams.value, policy.value.fields);
    if policyKwargs.Err? {
      return Err(policyKwargs.error);
    }
    var valueKwargs := CallKwargs(ExplicitArgs, netParams.value, map[]);
    assert valueKwargs.Ok?;
    r := Ok(LaunchPlan(args.vecEnvNums, args.procNums, evalEnvs, evalProcs, name,
                       netParams.value, policyKwargs.value, valueKwargs.value));
  }

  /** A successful plan, spelled out: both sections were dicts and the policy call did
      not clash. */
  lemma PlanValue(config: string, id: Option<string>, vecEnvNums: int, procNums: int,
                  params: map<string, Json>, visualDim: int)
    requires Plan(config, id, vecEnvNums, procNums, params, visualDim).Ok?
    ensures "net" in params && params["net"].JObj? && "policy" in params && params["policy"].JObj?
    ensures NetParams(WithBaseType(params["net"].fields), visualDim).Ok?
    ensures var netParams := NetParams(WithBaseType(params["net"].fields), visualDim).value;
      && CallKwargs(ExplicitArgs, netParams, params["policy"].fields).Ok?
      && Plan(config, id, vecEnvNums, procNums, params, visualDim).value
         == LaunchPlan(vecEnvNums, procNums, EvalCount(vecEnvNums), EvalCount(procNums),
                       ExperimentName(config, id), netParams,
                       CallKwargs(ExplicitArgs, netParams, params["policy"].fields).value,
                       CallKwargs(ExplicitArgs, netParams, map[]).value)
  {
  }

  /** The policy and the value network receive the same net_params, built from the
      net section after base_type was stored in it. */
  lemma PlanSharesNetParams(config: string, id: Option<string>, vecEnvNums: int, procNums: int,
                            params: map<string, Json>, visualDim: int)
    requires Plan(config, id, vecEnvNums, procNums, params, visualDim).Ok?
    ensures var plan := Plan(config, id, vecEnvNums, procNums, params, visualDim).value;
      && "net" in params && params["net"].JObj?
      && NetParams(WithBaseType(params["net"].fields), visualDim) == Ok(plan.netParams)
      && plan.valueKwargs == plan.netParams
      && (forall k :: k in plan.netParams ==> k in plan.policyKwargs && plan.policyKwargs[k] == plan.netParams[k])
  {
    PlanValue(config, id, vecEnvNums, procNums, params, visualDim);
    var netParams := NetParams(WithBaseType(params["net"].fields), visualDim).value;
    CallWithoutSecond(ExplicitArgs, netParams);
  }

  /** A call with a single ** expansion that clashes with no explicit argument receives
      exactly that dict. */
  lemma CallWithoutSecond(explicit: set<string>, first: map<string, Json>)
    requires first.Keys !! explicit
    ensures CallKwargs(explicit, first, map[]) == Ok(first)
  {
    assert first + map[] == first;
  }

  /** The net_params carry the base_type stored in the net section, and the evaluation
      environment is never smaller than two or than the training one. */
  lemma PlanShape(config: string, id: Option<string>, vecEnvNums: int, procNums: int,
                  params: map<string, Json>, visualDim: int)
    requires Plan(config, id, vecEnvNums, procNums, params, visualDim).Ok?
    ensures var plan := Plan(config, id, vecEnvNums, procNums, params, visualDim).value;
      && "base_type" in plan.netParams && plan.netParams["base_type"] == BaseTypeValue
      && plan.evalEnvs >= 2 && plan.evalEnvs >= vecEnvNums
      && plan.evalProcs >= 2 && plan.evalProcs >= procNums
      && plan.trainEnvs == vecEnvNums && plan.trainProcs == procNums
  {
    PlanValue(config, id, vecEnvNums, procNums, params, visualDim);
    NetParamsShape(WithBaseType(params["net"].fields), visualDim);
  }

  /** Example: "static/thin.json" without an id names the run "thin". */
  lemma ExampleName()
    ensures ExperimentName("static/thin.json", None) == "thin"
  {
    ExampleSplit();
    ExampleBasename();
  }

  lemma ExampleSplit()
    ensures SplitExt("static/thin.json") == ("static/thin", ".json")
  {
    var p := "static/thin.json";
    RFindUnique(p, '/', 6);
    RFindUnique(p, '.', 11);
    assert p[7] != '.';
    assert p[..11] == "static/thin" && p[11..] == ".json";
  }

  lemma ExampleBasename()
    ensures Basename("static/thin") == "thin"
  {
    var p := "static/thin";
    RFindUnique(p, '/', 6);
    assert p[7..] == "thin";
  }

  /** Example: a hidden file keeps its whole name, since a leading dot starts no extension. */
  lemma ExampleHiddenName()
    ensures ExperimentName("cfg/.json", None) == ".json"
  {
    var p := "cfg/.json";
    assert RFind(p, '/') == 3 by {
      RFindUnique(p, '/', 3);
    }
    assert RFind(p, '.') == 4 by {
      RFindUnique(p, '.', 4);
    }
    assert SplitExt(p) == (p, []);
  }
}
