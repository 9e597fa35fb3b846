/**
 * The transformer-to-Mamba layer mapping shared by the config converter and
 * the launcher: `for n_head, dim_feedforward in transformer_params` appends
 * one `[d_model, 16, 4, 2]` entry per element, ignoring the pair's values.
 * Python iterates a list by its elements, a string by its characters and a
 * dict by its keys; each element must unpack into exactly two values.
 */
module MambaParams {
  import opened Wrappers
  import opened Json

  const StateDim: int := 16   // d_state
  const ConvWidth: int := 4   // d_conv
  const Expand: int := 2      // expand

  /** The Mamba layer tuple [d_model, d_state, d_conv, expand]. */
  function MambaEntry(visualDim: Json): Json {
    JArr([visualDim, JInt(StateDim), JInt(ConvWidth), JInt(Expand)])
  }

  /** The exception `a, b = element` raises, if any: containers of the wrong
      length raise ValueError, scalars TypeError. */
  function UnpackError(element: Json): (r: Option<PyError>)
    ensures r.None? <==> Len(element) == Ok(2)
  {
    match element
    case JArr(s) => if |s| == 2 then None else Some(ValueError)
    case JStr(s) => if |s| == 2 then None else Some(ValueError)
    case JObj(m) => if |m| == 2 then None else Some(ValueError)
    case _ => Some(TypeError)
  }

  function Repeat(x: Json, n: nat): (r: seq<Json>)
    ensures |r| == n && forall i :: 0 <= i < n ==> r[i] == x
  {
    seq(n, _ => x)
  }

  /** What the loop produces over the iterated elements: one entry per element,
      or the exception of the first element that does not unpack. */
  function ParamsFromItems(items: seq<Json>, visualDim: Json): Result<seq<Json>, PyError>
    decreases |items|
  {
    if items == [] then Ok([])
    else if UnpackError(items[0]).Some? then Err(UnpackError(items[0]).value)
    else
      var rest :- ParamsFromItems(items[1..], visualDim);
      Ok([MambaEntry(visualDim)] + rest)
  }

  /** The elements `for ... in s` visits for a string: its one-character strings. */
  function CharItems(s: string): (r: seq<Json>)
    ensures |r| == |s| && forall i :: 0 <= i < |s| ==> r[i] == JStr([s[i]])
  {
    seq(|s|, i requires 0 <= i < |s| => JStr([s[i]]))
  }

  /** convert_transformer_params_to_mamba / the launcher's loop, over any JSON value. */
  function MambaParamsFor(transformerParams: Json, visualDim: Json): Result<seq<Json>, PyError> {
    match transformerParams
    case JArr(s) => ParamsFromItems(s, visualDim)
    case JStr(s) => ParamsFromItems(CharItems(s), visualDim)
    case JObj(m) =>
      if forall k :: k in m ==> |k| == 2 then Ok(Repeat(MambaEntry(visualDim), |m|))
      else Err(ValueError)
    case _ => Err(TypeError)
  }

  /** When every element unpacks, the result has one constant entry per element. */
  lemma {:induction false} ParamsAllUnpack(items: seq<Json>, visualDim: Json)
    requires forall i :: 0 <= i < |items| ==> UnpackError(items[i]).None?
    ensures ParamsFromItems(items, visualDim) == Ok(Repeat(MambaEntry(visualDim), |items|))
    decreases |items|
  {
    if items != [] {
      ParamsAllUnpack(items[1..], visualDim);
      assert [MambaEntry(visualDim)] + Repeat(MambaEntry(visualDim), |items| - 1)
          == Repeat(MambaEntry(visualDim), |items|);
    }
  }

  /** The first element that does not unpack decides the exception. */
  lemma {:induction false} ParamsFirstError(items: seq<Json>, visualDim: Json, i: nat)
    requires i < |items| && UnpackError(items[i]).Some?
    requires forall j :: 0 <= j < i ==> UnpackError(items[j]).None?
    ensures ParamsFromItems(items, visualDim) == Err(UnpackError(items[i]).value)
    decreases i
  {
    if i > 0 {
      ParamsFirstError(items[1..], visualDim, i - 1);
    }
  }

  /** The conversion succeeds exactly when every element unpacks into a pair, and then
      yields one `[visual_dim, 16, 4, 2]` per element whatever the pair holds. */
  lemma {:induction false} ParamsShape(items: seq<Json>, visualDim: Json)
    ensures ParamsFromItems(items, visualDim).Ok?
        <==> forall i :: 0 <= i < |items| ==> UnpackError(items[i]).None?
    ensures ParamsFromItems(items, visualDim).Ok?
        ==> ParamsFromItems(items, visualDim).value == Repeat(MambaEntry(visualDim), |items|)
  {
    if forall i :: 0 <= i < |items| ==> UnpackError(items[i]).None? {
      ParamsAllUnpack(items, visualDim);
    } else {
      var i := FirstBad(items);
      ParamsFirstError(items, visualDim, i);
    }
  }

  /** Index of the first element that does not unpack. */
  function FirstBad(items: seq<Json>): (i: nat)
    requires exists i :: 0 <= i < |items| && UnpackError(items[i]).Some?
    ensures i < |items| && UnpackError(items[i]).Some?
    ensures forall j :: 0 <= j < i ==> UnpackError(items[j]).None?
    decreases |items|
  {
    if UnpackError(items[0]).Some? then 0
    else
      assert exists i :: 0 <= i < |items[1..]| && UnpackError(items[1..][i]).Some? by {
        var i :| 0 <= i < |items| && UnpackError(items[i]).Some?;
        assert items[1..][i - 1] == items[i];
      }
      1 + FirstBad(items[1..])
  }

  /** The keys of a dict in some iteration order. */
  method KeysOf(m: map<string, Json>) returns (ks: seq<string>)
    ensures |ks| == |m|
    ensures forall k :: k in m <==> k in ks
  {
    ks := [];
    var rest := m.Keys;
    while rest != {}
      invariant rest <= m.Keys
      invariant forall k :: k in ks <==> k in m.Keys && k !in rest
      invariant |ks| + |rest| == |m.Keys|
      decreases |rest|
    {
      var k :| k in rest;
      ks := ks + [k];
      rest := rest - {k};
    }
  }

  /** The conversion loop: iterate, unpack each element, append the constant entry. */
  method ConvertParams(transformerParams: Json, visualDim: Json) returns (r: Result<seq<Json>, PyError>)
    ensures r == MambaParamsFor(transformerParams, visualDim)
  {
    var items: seq<Json>;
    match transformerParams {
      case JArr(s) => items := s;
      case JStr(s) => items := CharItems(s);
      case JObj(m) =>
        var ks := KeysOf(m);
        items := seq(|ks|, i requires 0 <= i < |ks| => JStr(ks[i]));
        forall k | k in m ensures JStr(k) in items {
          var j :| 0 <= j < |ks| && ks[j] == k;
          assert items[j] == JStr(k);
        }
      case _ => return Err(TypeError);
    }
    assert IteratedFrom(transformerParams, items);
    var mambaParams: seq<Json> := [];
    var i := 0;
    while i < |items|
      invariant 0 <= i <= |items|
      invariant forall j :: 0 <= j < i ==> UnpackError(items[j]).None?
      invariant mambaParams == Repeat(MambaEntry(visualDim), i)
    {
      var e := UnpackError(items[i]);
      if e.Some? {
        r := Err(e.value);
        ProveFailure(transformerParams, visualDim, items, i);
        return;
      }
      mambaParams := mambaParams + [MambaEntry(visualDim)];
      i := i + 1;
    }
    r := Ok(mambaParams);
    ProveSuccess(transformerParams, visualDim, items);
  }

  /** How `items` was obtained from the iterated value in ConvertParams. */
  ghost predicate IteratedFrom(transformerParams: Json, items: seq<Json>) {
    match transformerParams
    case JArr(s) => items == s
    case JStr(s) => items == CharItems(s)
    case JObj(m) =>
      |items| == |m| && (forall k :: k in m ==> JStr(k) in items)
      && forall i :: 0 <= i < |items| ==> items[i].JStr? && items[i].s in m
    case _ => false
  }

  lemma ProveFailure(transformerParams: Json, visualDim: Json, items: seq<Json>, i: nat)
    requires IteratedFrom(transformerParams, items)
    requires i < |items| && UnpackError(items[i]).Some?
    requires forall j :: 0 <= j < i ==> UnpackError(items[j]).None?
    ensures MambaParamsFor(transformerParams, visualDim) == Err(UnpackError(items[i]).value)
  {
    if transformerParams.JObj? {
      assert items[i].JStr? && |items[i].s| != 2;
    } else {
      ParamsFirstError(items, visualDim, i);
    }
  }

  lemma ProveSuccess(transformerParams: Json, visualDim: Json, items: seq<Json>)
    requires IteratedFrom(transformerParams, items)
    requires forall j :: 0 <= j < |items| ==> UnpackError(items[j]).None?
    ensures MambaParamsFor(transformerParams, visualDim) == Ok(Repeat(MambaEntry(visualDim), |items|))
  {
    if transformerParams.JObj? {
      var m := transformerParams.fields;
      forall k | k in m ensures |k| == 2 {
        var j :| 0 <= j < |items| && items[j] == JStr(k);
        assert UnpackError(items[j]).None?;
      }
    } else {
      ParamsAllUnpack(items, visualDim);
    }
  }
}
