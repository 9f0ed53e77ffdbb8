/** The prediction service (ml-api/app.py): the model-loaded guard, the
    normalisation of the requested features onto the model's fixed column
    order, and the probability threshold. */
module MlApi {
  import opened Base
  import opened Json
  import Http

  /** `features_list`: the model's input columns, in order. */
  const FeaturesList: seq<string> := [
    "Latitude", "Longitude", "_24d", "_as", "_do", "aldrin", "alk_phen", "alk_tot",
    "b", "barium", "bhc", "bod", "bod3_27", "ca", "carbon_14", "cd",
    "chlf_a", "cl", "cn", "co3", "cocci", "cod", "cr", "cu",
    "ddt", "dieldrin", "do_sat_", "ec_fld", "ec_gen", "endos", "f", "fcol_mpn",
    "fe", "har_ca", "har_mg", "har_total", "hco3", "hg", "k", "mg",
    "na", "na_", "nh3_n", "ni", "no2_n", "no2_no3", "no3_n", "o_po4_p",
    "org_n", "p_tot", "pah", "pb", "ph_fld", "ph_gen", "rsc", "sar",
    "secchi", "sio2", "sio3", "so4", "ss", "tcol_mpn", "tds", "temp",
    "toc", "ts", "turb", "zn", "_401", "ag", "al", "colour_cod",
    "d_o", "d_o_", "mn", "odour_code", "oxygen_18", "pcb", "ph", "phenols",
    "radon", "se", "strontium", "tritium", "uranium", "no2__n", "caco3", "mgcaco3"]

  /** The columns of the one-row frame `pd.DataFrame([features])`. A value
      that is not an object yields positional columns labelled 0, 1, ...
      (one per element of an array), and no integer label matches a feature
      name, so it contributes no columns here. */
  function Columns(features: Json): map<string, Json>
  {
    if features.Obj? then features.fields else map[]
  }

  /** One cell after `reindex(columns=...).fillna(0)`: the supplied value, or
      0 where the column was missing or null. */
  function Cell(columns: map<string, Json>, name: string): Json
  {
    if name in columns && columns[name] != Null then columns[name] else Num(0.0)
  }

  /** `reindex(columns=names).fillna(0)` on a one-row frame: one cell per name,
      in the order of `names`. */
  function Reindex(columns: map<string, Json>, names: seq<string>): (row: seq<Json>)
    ensures |row| == |names|
    ensures forall i :: 0 <= i < |names| && names[i] in columns && columns[names[i]] != Null ==>
      row[i] == columns[names[i]]
    ensures forall i :: 0 <= i < |names| && (names[i] !in columns || columns[names[i]] == Null) ==>
      row[i] == Num(0.0)
  {
    MapSeq((name: string) => Cell(columns, name), names)
  }

  /** Keys outside `names` are dropped: two frames that agree on every listed
      column reindex to the same row. */
  lemma ExtraKeysIgnored(a: map<string, Json>, b: map<string, Json>, names: seq<string>)
    requires forall i :: 0 <= i < |names| ==> Cell(a, names[i]) == Cell(b, names[i])
    ensures Reindex(a, names) == Reindex(b, names)
  {
  }

  /** The row the model is given for the request's `features` value. */
  function Normalise(names: seq<string>, features: Json): seq<Json>
  {
    Reindex(Columns(features), names)
  }

  /** With the service's own column list the model always sees 88 cells, and
      the deployed handler answers with the model's value on exactly that row. */
  lemma RowWidth(m: Model, request: Json, plots: Plots)
    ensures forall features :: |Normalise(FeaturesList, features)| == 88
    ensures Get(request, "features").Some? ==>
      var r := Predict(StartService(Some(m)), Some(request), plots);
      && r.status == 200
      && Get(r.body.json, "prediction") == Some(Num(m(Normalise(FeaturesList, Get(request, "features").value))))
  {
  }

  const Threshold: real := 0.3

  /** `"high" if risk_probability > 0.3 else "low"`. */
  function RiskLabel(probability: real): (risk: string)
    ensures risk == "high" <==> probability > Threshold
    ensures risk == "low" <==> probability <= Threshold
  {
    if probability > Threshold then "high" else "low"
  }

  /** The threshold itself is low, and the label can only rise with the
      probability. */
  lemma RiskLabelMonotone(p: real, q: real)
    requires p <= q && RiskLabel(p) == "high"
    ensures RiskLabel(q) == "high"
    ensures RiskLabel(Threshold) == "low"
  {
  }

  /** The classifier's `predict_proba(...)[:, 1]` on one normalised row. */
  type Model = seq<Json> -> real

  /** The module-level globals the handler reads: the model, `None` when
      loading it failed at start-up, and the column list. */
  datatype Service = Service(model: Option<Model>, columns: seq<string>)

  /** The service as the module sets it up, around whatever model loading
      produced. */
  function StartService(model: Option<Model>): Service
  {
    Service(model, FeaturesList)
  }

  /** The two Base64 plot images; their content is not modelled. */
  datatype Plots = Plots(featureImportance: string, confusionMatrix: string)

  const ModelNotLoaded: Json := Obj(map["error" := Str("Model not loaded")])

  /** The success body: the probability, the label computed from that same
      probability, and the two plots. */
  function PredictionJson(probability: real, plots: Plots): Json
  {
    Obj(map[
      "prediction" := Num(probability),
      "outbreak_risk" := Str(RiskLabel(probability)),
      "feature_importance_plot" := Str(plots.featureImportance),
      "confusion_matrix_plot" := Str(plots.confusionMatrix)])
  }

  /** `predict`. `request` is the body as JSON, `None` when it does not parse
      (the framework answers 400). A body without a `features` key, or one
      that is not an object, makes the handler raise (500). */
  function Predict(service: Service, request: Option<Json>, plots: Plots): (r: Http.Response)
    ensures service.model.None? ==> r == Http.Response(500, Http.JsonBody(ModelNotLoaded))
    ensures service.model.Some? && request.None? ==> r == Http.Response(400, Http.ErrorPage)
    ensures service.model.Some? && request.Some? && Get(request.value, "features").None? ==>
      r == Http.Response(500, Http.ErrorPage)
    ensures r.status == 200 <==> service.model.Some? && request.Some? && Get(request.value, "features").Some?
    ensures r.status == 200 ==>
      && r.body.JsonBody?
      && var p := service.model.value(Normalise(service.columns, request.value.fields["features"]));
      && Get(r.body.json, "prediction") == Some(Num(p))
      && Get(r.body.json, "outbreak_risk") == Some(Str(RiskLabel(p)))
      && "seaborn_plot" !in r.body.json.fields
      && Get(r.body.json, "feature_importance_plot") == Some(Str(plots.featureImportance))
      && Get(r.body.json, "confusion_matrix_plot") == Some(Str(plots.confusionMatrix))
  {
    match service.model
    case None => Http.Response(500, Http.JsonBody(ModelNotLoaded))
    case Some(m) =>
      match request
      case None => Http.Response(400, Http.ErrorPage)
      case Some(data) =>
        match Get(data, "features")
        case None => Http.Response(500, Http.ErrorPage)
        case Some(features) =>
          Http.Response(200, Http.JsonBody(PredictionJson(m(Normalise(service.columns, features)), plots)))
  }

  /** The guard comes before the body is read: without a model every request
      gets the same answer. */
  lemma GuardIgnoresRequest(columns: seq<string>, a: Option<Json>, b: Option<Json>, pa: Plots, pb: Plots)
    ensures Predict(Service(None, columns), a, pa) == Predict(Service(None, columns), b, pb)
  {
  }
}
