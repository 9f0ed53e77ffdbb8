/** The Actix server (server/src/main.rs): the generated hotspots, the fixed
    dashboard payload and its JSON form, and the relay of prediction requests
    to the Python service. */
module Server {
  import opened Base
  import opened Json
  import Http

  const Locations: seq<string> := [
    "Pahadi Gaon", "Jungle Basti", "Riverside Town", "Hilltop Village", "Dhalpur",
    "Chandrasekharpur", "Patia", "Saheed Nagar", "Rasulgarh", "Nayapalli"]

  const Diseases: seq<string> := ["Cholera", "Typhoid", "Hepatitis A", "Diarrhea"]

  const CentreLat: real := 20.2961
  const CentreLon: real := 85.8245

  /** The random values drawn for one hotspot, in draw order: the risk, the
      case count, and the two unit values that place it around the centre. */
  datatype Draw = Draw(risk: real, cases: int, latUnit: real, lonUnit: real)

  /** The ranges the generator guarantees: `gen::<f64>()` in [0, 1) and
      `gen_range(5..=70)`. */
  predicate InRange(d: Draw)
  {
    && 0.0 <= d.risk < 1.0
    && 5 <= d.cases <= 70
    && 0.0 <= d.latUnit < 1.0
    && 0.0 <= d.lonUnit < 1.0
  }

  datatype MapHotspot = MapHotspot(
    id: int,
    location: string,
    disease: string,
    risk: real,
    cases: int,
    lat: real,
    lon: real)

  /** A coordinate spread at most a quarter of a degree wide around `centre`. */
  predicate Near(x: real, centre: real)
  {
    centre - 0.125 <= x < centre + 0.125
  }

  /** The record pushed in iteration `i`. */
  function HotspotAt(i: nat, d: Draw): MapHotspot
  {
    MapHotspot(
      i,
      Locations[i % |Locations|],
      Diseases[i % |Diseases|],
      d.risk,
      d.cases,
      CentreLat + (d.latUnit - 0.5) * 0.25,
      CentreLon + (d.lonUnit - 0.5) * 0.25)
  }

  /** The vector after `k` iterations of the loop. */
  function Generate(k: nat, draws: seq<Draw>): (hs: seq<MapHotspot>)
    requires k <= |draws|
    ensures |hs| == k
    ensures forall i :: 0 <= i < k ==> hs[i] == HotspotAt(i, draws[i])
  {
    if k == 0 then [] else Generate(k - 1, draws) + [HotspotAt(k - 1, draws[k - 1])]
  }

  /** How often `for i in 0..num_hotspots` iterates. */
  function Iterations(numHotspots: int): nat
  {
    if numHotspots <= 0 then 0 else numHotspots
  }

  /** `generate_map_data`: the draws are the generator's output stream. */
  function GenerateMapData(numHotspots: int, draws: seq<Draw>): (hs: seq<MapHotspot>)
    requires Iterations(numHotspots) <= |draws|
    ensures numHotspots >= 0 ==> |hs| == numHotspots
    ensures numHotspots <= 0 ==> hs == []
    ensures forall i :: 0 <= i < |hs| ==>
      && hs[i].id == i
      && hs[i].location == Locations[i % 10]
      && hs[i].disease == Diseases[i % 4]
      && hs[i].risk == draws[i].risk
      && hs[i].cases == draws[i].cases
      && hs[i].lat == CentreLat + (draws[i].latUnit - 0.5) * 0.25
      && hs[i].lon == CentreLon + (draws[i].lonUnit - 0.5) * 0.25
    ensures forall i :: 0 <= i < |hs| && InRange(draws[i]) ==>
      && 5 <= hs[i].cases <= 70
      && 0.0 <= hs[i].risk < 1.0
      && Near(hs[i].lat, CentreLat)
      && Near(hs[i].lon, CentreLon)
  {
    Generate(Iterations(numHotspots), draws)
  }

  /** Every generated disease is one of the four names. */
  lemma GeneratedDiseasesAreKnown(numHotspots: int, draws: seq<Draw>)
    requires Iterations(numHotspots) <= |draws|
    ensures forall h :: h in GenerateMapData(numHotspots, draws) ==> h.disease in Diseases
  {
  }

  datatype SymptomDataPoint = SymptomDataPoint(labelText: string, value: int)

  datatype Alert = Alert(message: string, alertType: string)

  datatype DashboardData = DashboardData(
    totalCases: int,
    activeAlerts: int,
    symptomData: seq<SymptomDataPoint>,
    mapHotspots: seq<MapHotspot>,
    alerts: seq<Alert>)

  function PointLabel(p: SymptomDataPoint): string { p.labelText }

  function AlertTypeOf(a: Alert): string { a.alertType }

  /** The payload of `get_dashboard_data`: fixed figures, six months of
      symptom counts, ten generated hotspots and three alerts. */
  function DashboardPayload(draws: seq<Draw>): (d: DashboardData)
    requires 10 <= |draws|
    ensures d.totalCases == 5432 && d.activeAlerts == 17
    ensures MapSeq(PointLabel, d.symptomData) == ["May", "Jun", "Jul", "Aug", "Sep", "Oct"]
    ensures d.mapHotspots == GenerateMapData(10, draws)
    ensures MapSeq(AlertTypeOf, d.alerts) == ["critical", "warning", "info"]
  {
    DashboardData(
      5432,
      17,
      [ SymptomDataPoint("May", 25), SymptomDataPoint("Jun", 35), SymptomDataPoint("Jul", 30),
        SymptomDataPoint("Aug", 20), SymptomDataPoint("Sep", 28), SymptomDataPoint("Oct", 40) ],
      GenerateMapData(10, draws),
      [ Alert("Confirmed Cholera outbreak in village 'Pahadi Gaon'", "critical"),
        Alert("Water turbidity levels rising in source 'Bhagirathi'", "warning"),
        Alert("Spike in fever symptoms reported via mobile app", "info") ])
  }

  /** Serialisation of the records, field names as declared (`alert_type` is
      renamed to `type`). */
  function HotspotJson(h: MapHotspot): Json
  {
    Obj(map[
      "id" := Num(h.id as real),
      "location" := Str(h.location),
      "disease" := Str(h.disease),
      "risk" := Num(h.risk),
      "cases" := Num(h.cases as real),
      "lat" := Num(h.lat),
      "lon" := Num(h.lon)])
  }

  function PointJson(p: SymptomDataPoint): Json
  {
    Obj(map["label" := Str(p.labelText), "value" := Num(p.value as real)])
  }

  function AlertJson(a: Alert): Json
  {
    Obj(map["message" := Str(a.message), "type" := Str(a.alertType)])
  }

  function DashboardJson(d: DashboardData): (j: Json)
    ensures Get(j, "total_cases") == Some(Num(d.totalCases as real))
    ensures Get(j, "active_alerts") == Some(Num(d.activeAlerts as real))
    ensures Get(j, "symptom_data") == Some(Arr(MapSeq(PointJson, d.symptomData)))
    ensures Get(j, "map_hotspots") == Some(Arr(MapSeq(HotspotJson, d.mapHotspots)))
    ensures Get(j, "alerts") == Some(Arr(MapSeq(AlertJson, d.alerts)))
  {
    Obj(map[
      "total_cases" := Num(d.totalCases as real),
      "active_alerts" := Num(d.activeAlerts as real),
      "symptom_data" := Arr(MapSeq(PointJson, d.symptomData)),
      "map_hotspots" := Arr(MapSeq(HotspotJson, d.mapHotspots)),
      "alerts" := Arr(MapSeq(AlertJson, d.alerts))])
  }

  /** `HttpResponse::Ok().json(data)`. */
  function GetDashboardData(draws: seq<Draw>): (r: Http.Response)
    requires 10 <= |draws|
    ensures r.status == 200 && r.body.JsonBody?
    ensures Get(r.body.json, "total_cases") == Some(Num(5432.0))
    ensures Get(r.body.json, "active_alerts") == Some(Num(17.0))
    ensures var d := DashboardPayload(draws);
      && Get(r.body.json, "symptom_data") == Some(Arr(MapSeq(PointJson, d.symptomData)))
      && Get(r.body.json, "map_hotspots") == Some(Arr(MapSeq(HotspotJson, GenerateMapData(10, draws))))
      && Get(r.body.json, "alerts") == Some(Arr(MapSeq(AlertJson, d.alerts)))
  {
    var d := DashboardPayload(draws);
    Http.Response(200, Http.JsonBody(DashboardJson(d)))
  }

  /** `PythonPredictionResponse`, the shape the server expects back. */
  datatype PythonPredictionResponse = PythonPredictionResponse(
    prediction: real,
    outbreakRisk: string,
    seabornPlot: Option<string>)

  /** How an `Option<String>` is written: null for `None`. */
  function PlotJson(plot: Option<string>): Json
  {
    match plot
    case None => Null
    case Some(p) => Str(p)
  }

  /** Deserialising an `Option<String>` value: null is `None`, a string is
      `Some`, anything else is an error (the outer `None`). */
  function OptionalString(v: Json): Option<Option<string>>
  {
    match v
    case Null => Some(None)
    case Str(p) => Some(Some(p))
    case _ => None
  }

  /** The derived `Deserialize` as serde_json drives it. From an object,
      `prediction` must be a number and `outbreak_risk` a string,
      `seaborn_plot` may be missing, and any other field is ignored. From an
      array, the three fields come by position and the length must be
      exactly three. */
  function DecodePrediction(j: Json): (r: Option<PythonPredictionResponse>)
    ensures r.Some? ==> j.Obj? || j.Arr?
    ensures r.Some? && j.Obj? ==>
      && Get(j, "prediction") == Some(Num(r.value.prediction))
      && Get(j, "outbreak_risk") == Some(Str(r.value.outbreakRisk))
      && (if "seaborn_plot" in j.fields then j.fields["seaborn_plot"] == PlotJson(r.value.seabornPlot)
          else r.value.seabornPlot.None?)
    ensures r.Some? && j.Arr? ==>
      j.items == [Num(r.value.prediction), Str(r.value.outbreakRisk), PlotJson(r.value.seabornPlot)]
    ensures (&& j.Obj? && "seaborn_plot" !in j.fields
             && "prediction" in j.fields && j.fields["prediction"].Num?
             && "outbreak_risk" in j.fields && j.fields["outbreak_risk"].Str?)
      ==> r.Some? && r.value.seabornPlot.None?
    ensures (&& j.Arr? && |j.items| == 3
             && j.items[0].Num? && j.items[1].Str? && (j.items[2] == Null || j.items[2].Str?))
      ==> r.Some?
  {
    match j
    case Obj(fs) =>
      if "prediction" !in fs || !fs["prediction"].Num? then None
      else if "outbreak_risk" !in fs || !fs["outbreak_risk"].Str? then None
      else
        var plot := if "seaborn_plot" in fs then OptionalString(fs["seaborn_plot"]) else Some(None);
        (match plot
         case None => None
         case Some(p) => Some(PythonPredictionResponse(fs["prediction"].n, fs["outbreak_risk"].s, p)))
    case Arr(items) =>
      if |items| != 3 || !items[0].Num? || !items[1].Str? then None
      else (
        match OptionalString(items[2])
        case None => None
        case Some(p) => Some(PythonPredictionResponse(items[0].n, items[1].s, p)))
    case _ => None
  }

  /** The derived `Serialize`: a missing plot is written as null. */
  function EncodePrediction(p: PythonPredictionResponse): Json
  {
    Obj(map[
      "prediction" := Num(p.prediction),
      "outbreak_risk" := Str(p.outbreakRisk),
      "seaborn_plot" := PlotJson(p.seabornPlot)])
  }

  /** What the server re-serialises, it reads back unchanged. */
  lemma DecodeEncode(p: PythonPredictionResponse)
    ensures DecodePrediction(EncodePrediction(p)) == Some(p)
  {
  }

  /** The positional form is accepted as well: a 2xx body
      `[0.5, "high", null]` is relayed as a 200. */
  lemma ArrayFormRelayed(text: string)
    ensures PredictOutbreak(Answered(200, Readable(text, Some(Arr([Num(0.5), Str("high"), Null])))))
      == Http.Response(200, Http.JsonBody(EncodePrediction(PythonPredictionResponse(0.5, "high", None))))
  {
  }

  /** Fields the struct does not declare have no effect on decoding. */
  lemma UnknownFieldIgnored(fields: map<string, Json>, key: string, v: Json)
    requires key != "prediction" && key != "outbreak_risk" && key != "seaborn_plot"
    ensures DecodePrediction(Obj(fields[key := v])) == DecodePrediction(Obj(fields))
  {
  }

  /** The body of the Python service's answer, as reqwest reads it: unreadable,
      or its text together with the JSON it parses as (`None` when it is not
      JSON). */
  datatype UpstreamBody = Unreadable | Readable(text: string, json: Option<Json>)

  /** How the forwarded request to the Python service ends. */
  datatype Upstream = ConnectFailed | Answered(status: nat, body: UpstreamBody)

  const ConnectError: string := "Failed to connect to Python service"
  const ParseError: string := "Failed to parse prediction response"
  const UpstreamErrorPrefix: string := "Python service error: "

  /** The decoded answer of a 2xx response, if its body decodes. */
  function Decoded(body: UpstreamBody): Option<PythonPredictionResponse>
  {
    if body.Readable? && body.json.Some? then DecodePrediction(body.json.value) else None
  }

  /** `predict_outbreak`: the upstream outcome classified into one of four
      answers. */
  function PredictOutbreak(res: Upstream): (r: Http.Response)
    ensures r.status in {200, 500, 502}
    ensures res.ConnectFailed? ==> r == Http.Response(500, Http.TextBody(ConnectError))
    ensures r.status == 200 <==> res.Answered? && Http.IsSuccess(res.status) && Decoded(res.body).Some?
    ensures r.status == 200 ==> r.body == Http.JsonBody(EncodePrediction(Decoded(res.body).value))
    ensures res.Answered? && Http.IsSuccess(res.status) && Decoded(res.body).None? ==>
      r == Http.Response(500, Http.TextBody(ParseError))
    ensures r.status == 502 <==> res.Answered? && !Http.IsSuccess(res.status)
    ensures r.status == 502 ==> r.body == Http.TextBody(UpstreamErrorPrefix +
      (if res.body.Readable? then res.body.text else "Unknown error"))
  {
    match res
    case ConnectFailed => Http.Response(500, Http.TextBody(ConnectError))
    case Answered(status, body) =>
      if Http.IsSuccess(status) then
        match Decoded(body)
        case Some(p) => Http.Response(200, Http.JsonBody(EncodePrediction(p)))
        case None => Http.Response(500, Http.TextBody(ParseError))
      else
        var text := if body.Readable? then body.text else "Unknown error";
        Http.Response(502, Http.TextBody(UpstreamErrorPrefix + text))
  }

  /** The request body forwarded upstream: `PredictionRequest` re-serialised,
      every feature a number. */
  function ForwardedRequest(features: map<string, real>): Json
  {
    Obj(map["features" := Obj(map k | k in features :: Num(features[k]))])
  }
}
