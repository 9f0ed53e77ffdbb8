/** How the three tiers fit together: the JSON the server writes read as the
    client components' props, the dashboard response carried through the page
    state machine, and the Python service's answers relayed by the server. */
module Pipeline {
  import opened Base
  import opened Json
  import Http
  import App
  import HotspotMap
  import AlertFeed
  import SymptomChart
  import Server
  import MlApi

  function NumField(j: Json, key: string): Option<real>
  {
    match Get(j, key)
    case Some(Num(n)) => Some(n)
    case _ => None
  }

  function StrField(j: Json, key: string): Option<string>
  {
    match Get(j, key)
    case Some(Str(s)) => Some(s)
    case _ => None
  }

  /** A hotspot object read as the map's props, when every field it uses is
      present with the expected JSON type. */
  function HotspotProps(j: Json): Option<HotspotMap.Hotspot>
  {
    var id, lat, lon := NumField(j, "id"), NumField(j, "lat"), NumField(j, "lon");
    var location, disease, cases := StrField(j, "location"), StrField(j, "disease"), NumField(j, "cases");
    if id.Some? && lat.Some? && lon.Some? && location.Some? && disease.Some? && cases.Some?
    then Some(HotspotMap.Hotspot(id.value, lat.value, lon.value, location.value, disease.value, cases.value))
    else None
  }

  /** An alert object read as the feed's props: a `type` that is not a string
      matches no case of the switch, exactly like a missing one. */
  function AlertProps(j: Json): Option<AlertFeed.Alert>
  {
    match StrField(j, "message")
    case None => None
    case Some(m) => Some(AlertFeed.Alert(StrField(j, "type"), m))
  }

  function PointProps(j: Json): Option<SymptomChart.Point>
  {
    var l, v := StrField(j, "label"), NumField(j, "value");
    if l.Some? && v.Some? then Some(SymptomChart.Point(l.value, v.value)) else None
  }

  /** Every element of an array read with `read`, or `None` as soon as one
      element does not have the shape the component uses. */
  function ReadAll<T>(js: seq<Json>, read: Json -> Option<T>): (r: Option<seq<T>>)
    ensures r.Some? ==> |r.value| == |js| && forall i :: 0 <= i < |js| ==> read(js[i]) == Some(r.value[i])
    ensures r.None? ==> exists i :: 0 <= i < |js| && read(js[i]).None?
  {
    if js == [] then Some([])
    else
      match (read(js[0]), ReadAll(js[1..], read))
      case (Some(x), Some(xs)) => Some([x] + xs)
      case (None, _) => None
      case (_, None) => None
  }

  /** A component's array prop: present, an array, and every element readable. */
  function ArrayProps<T>(j: Option<Json>, read: Json -> Option<T>): Option<seq<T>>
  {
    match j
    case Some(Arr(items)) => ReadAll(items, read)
    case _ => None
  }

  /** Writing records with `encode` and reading them with `read` gives back
      `decode` of each record, in order, when that holds for each one. */
  lemma {:induction false} ReadAllEncoded<A, T>(xs: seq<A>, encode: A -> Json, read: Json -> Option<T>, decode: A -> T)
    requires forall x :: read(encode(x)) == Some(decode(x))
    ensures ReadAll(MapSeq(encode, xs), read) == Some(MapSeq(decode, xs))
  {
    if xs != [] {
      var js := MapSeq(encode, xs);
      assert js[1..] == MapSeq(encode, xs[1..]);
      assert MapSeq(decode, xs) == [decode(xs[0])] + MapSeq(decode, xs[1..]);
      ReadAllEncoded(xs[1..], encode, read, decode);
    }
  }

  /** The map's props for a server hotspot. */
  function HotspotOf(h: Server.MapHotspot): HotspotMap.Hotspot
  {
    HotspotMap.Hotspot(h.id as real, h.lat, h.lon, h.location, h.disease, h.cases as real)
  }

  /** The feed's props for a server alert. */
  function AlertOf(a: Server.Alert): AlertFeed.Alert
  {
    AlertFeed.Alert(Some(a.alertType), a.message)
  }

  /** The chart's props for a server symptom point. */
  function PointOf(p: Server.SymptomDataPoint): SymptomChart.Point
  {
    SymptomChart.Point(p.labelText, p.value as real)
  }

  /** What the map receives for a server hotspot: the same record, integers
      widened to JavaScript numbers; the risk score is not read. */
  lemma HotspotReadsBack(h: Server.MapHotspot)
    ensures HotspotProps(Server.HotspotJson(h))
      == Some(HotspotMap.Hotspot(h.id as real, h.lat, h.lon, h.location, h.disease, h.cases as real))
  {
  }

  lemma AlertReadsBack(a: Server.Alert)
    ensures AlertProps(Server.AlertJson(a)) == Some(AlertFeed.Alert(Some(a.alertType), a.message))
  {
  }

  lemma PointReadsBack(p: Server.SymptomDataPoint)
    ensures PointProps(Server.PointJson(p)) == Some(SymptomChart.Point(p.labelText, p.value as real))
  {
  }

  /** Every disease the server generates has its own colour on the map: no
      generated hotspot is drawn grey. */
  lemma GeneratedHotspotsColoured(numHotspots: int, draws: seq<Server.Draw>)
    requires Server.Iterations(numHotspots) <= |draws|
    ensures forall h :: h in Server.GenerateMapData(numHotspots, draws) ==>
      HotspotMap.DiseaseColor(h.disease) != HotspotMap.Grey
  {
  }

  /** The map's props for the server's hotspots. */
  function PayloadHotspots(d: Server.DashboardData): seq<HotspotMap.Hotspot>
  {
    MapSeq(HotspotOf, d.mapHotspots)
  }

  /** The server scatters its hotspots around the very point the map is
      centred on, at most an eighth of a degree away on each axis. */
  lemma GeneratedHotspotsAroundMapCenter(numHotspots: int, draws: seq<Server.Draw>)
    requires Server.Iterations(numHotspots) <= |draws|
    requires forall i :: 0 <= i < |draws| ==> Server.InRange(draws[i])
    ensures forall h :: h in Server.GenerateMapData(numHotspots, draws) ==>
      Server.Near(h.lat, HotspotMap.MapCenter.0) && Server.Near(h.lon, HotspotMap.MapCenter.1)
  {
  }

  /** The feed's props for the server's alerts. */
  function PayloadAlerts(d: Server.DashboardData): seq<AlertFeed.Alert>
  {
    MapSeq(AlertOf, d.alerts)
  }

  /** Every alert type the server emits is one the feed styles by name, and
      its three alerts get the critical, warning and info styles in order. */
  lemma ServerAlertsRecognised(draws: seq<Server.Draw>)
    requires 10 <= |draws|
    ensures var alerts := PayloadAlerts(Server.DashboardPayload(draws));
      && (forall a :: a in alerts ==> AlertFeed.Recognised(a.alertType))
      && MapSeq((it: AlertFeed.Item) => it.details, AlertFeed.Items(alerts))
         == [AlertFeed.CriticalDetails, AlertFeed.WarningDetails, AlertFeed.InfoDetails]
  {
  }

  /** The chart's props for the server's symptom series. */
  function PayloadPoints(d: Server.DashboardData): seq<SymptomChart.Point>
  {
    MapSeq(PointOf, d.symptomData)
  }

  /** The chart drawn from the server's series runs May to October in order,
      with the server's counts. */
  lemma PayloadChart(draws: seq<Server.Draw>)
    requires 10 <= |draws|
    ensures var c := SymptomChart.Chart(PayloadPoints(Server.DashboardPayload(draws)));
      && c.labels == ["May", "Jun", "Jul", "Aug", "Sep", "Oct"]
      && c.datasets[0].data == [25.0, 35.0, 30.0, 20.0, 28.0, 40.0]
  {
  }

  /** The full dashboard load: the server's 200 response, parsed by the
      browser and stored by the page, is shown once the timer fires, with
      5432 and 17 on the tiles and only the alerts tile in warning colours. */
  lemma DashboardEndToEnd(draws: seq<Server.Draw>)
    requires 10 <= |draws|
    ensures var resp := Server.GetDashboardData(draws);
      var s := App.Run(App.Init(), [App.FetchSettled(App.Responded(resp.status, App.Parsed(resp.body.json))), App.TimerFired]);
      var layout := App.DashboardLayout(resp.body.json);
      && App.RenderContent(s) == App.DashboardView(resp.body.json)
      && layout.tiles[0].value == Some(Num(5432.0)) && !layout.tiles[0].isWarning
      && layout.tiles[1].value == Some(Num(17.0)) && layout.tiles[1].isWarning
  {
    var resp := Server.GetDashboardData(draws);
    App.SuccessfulLoadShowsData(resp.status, resp.body.json);
  }

  /** The server's answer as reqwest receives it: status, the body's text
      (opaque here), and the JSON it parses as. */
  function Relay(r: Http.Response, text: string): Server.Upstream
  {
    Server.Answered(r.status, Server.Readable(text, if r.body.JsonBody? then Some(r.body.json) else None))
  }

  /** The plots the Python service sends never reach the client: the server's
      struct expects `seaborn_plot`, the service sends other names, and the
      server forwards the prediction and label with a null `seaborn_plot`. */
  lemma SeabornPlotNeverForwarded(service: MlApi.Service, request: Option<Json>, plots: MlApi.Plots, text: string)
    requires MlApi.Predict(service, request, plots).status == 200
    ensures var ml := MlApi.Predict(service, request, plots);
      var out := Server.PredictOutbreak(Relay(ml, text));
      && out.status == 200
      && out.body == Http.JsonBody(Server.EncodePrediction(Server.PythonPredictionResponse(
           ml.body.json.fields["prediction"].n, ml.body.json.fields["outbreak_risk"].s, None)))
      && Get(out.body.json, "seaborn_plot") == Some(Null)
  {
  }

  /** A service that failed to load its model answers 500, which the server
      turns into a 502 carrying the service's body text. */
  lemma ModelMissingIsBadGateway(columns: seq<string>, request: Option<Json>, plots: MlApi.Plots, text: string)
    ensures var ml := MlApi.Predict(MlApi.Service(None, columns), request, plots);
      Server.PredictOutbreak(Relay(ml, text))
        == Http.Response(502, Http.TextBody(Server.UpstreamErrorPrefix + text))
  {
  }

  /** The features the server forwards reach the model in column order: a
      listed feature keeps its number, an unlisted one is dropped, a missing
      one becomes 0. */
  lemma ForwardedFeaturesNormalised(features: map<string, real>, columns: seq<string>)
    ensures var fs := Get(Server.ForwardedRequest(features), "features");
      && fs.Some?
      && var row := MlApi.Normalise(columns, fs.value);
      && |row| == |columns|
      && forall i :: 0 <= i < |columns| ==>
           row[i] == (if columns[i] in features then Num(features[columns[i]]) else Num(0.0))
  {
  }

  /** The chart, map and feed props read from any serialised dashboard are
      exactly its points, hotspots and alerts. */
  lemma DashboardJsonReadsBack(d: Server.DashboardData)
    ensures var j := Server.DashboardJson(d);
      && ArrayProps(Get(j, "symptom_data"), PointProps) == Some(PayloadPoints(d))
      && ArrayProps(Get(j, "map_hotspots"), HotspotProps) == Some(PayloadHotspots(d))
      && ArrayProps(Get(j, "alerts"), AlertProps) == Some(PayloadAlerts(d))
  {
    forall p { PointReadsBack(p); }
    forall h { HotspotReadsBack(h); }
    forall a { AlertReadsBack(a); }
    ReadAllEncoded(d.symptomData, Server.PointJson, PointProps, PointOf);
    ReadAllEncoded(d.mapHotspots, Server.HotspotJson, HotspotProps, HotspotOf);
    ReadAllEncoded(d.alerts, Server.AlertJson, AlertProps, AlertOf);
  }

  /** The chart, map and feed props the page hands out, read from the JSON the
      server served, are exactly the payload's points, hotspots and alerts. */
  lemma DashboardPropsReadBack(draws: seq<Server.Draw>)
    requires 10 <= |draws|
    ensures var d := Server.DashboardPayload(draws);
      var layout := App.DashboardLayout(Server.GetDashboardData(draws).body.json);
      && ArrayProps(layout.symptomData, PointProps) == Some(PayloadPoints(d))
      && ArrayProps(layout.hotspots, HotspotProps) == Some(PayloadHotspots(d))
      && ArrayProps(layout.alerts, AlertProps) == Some(PayloadAlerts(d))
  {
    DashboardJsonReadsBack(Server.DashboardPayload(draws));
  }
}
