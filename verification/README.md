# Health-Dashboard: a Dafny model of the dashboard's decision logic

The Health-Dashboard has three tiers: a React page, an Actix (Rust) server and a Flask (Python) prediction service. The page loads one dashboard snapshot from the server. The server builds that snapshot, with randomly placed disease hotspots, and relays prediction requests to the Python service. The Python service normalises the requested water-quality features into the classifier's column order and labels the risk.

This project models the decision logic of all three tiers as pure Dafny functions over immutable datatypes:

- the page's load state machine (`dashboardData`, `loading`, `error`) and its render priority (module `App`);
- the client's display encoders: disease colours, marker radius, alert styles and the chart projection (modules `HotspotMap`, `AlertFeed`, `SymptomChart`);
- the server's hotspot generator, fixed dashboard payload, JSON serialisation and prediction relay (module `Server`);
- the service's model-loaded guard, feature reindexing and risk threshold (module `MlApi`);
- how the tiers fit together (module `Pipeline`).

Shared vocabulary lives in `Base` (an optional value and the order-preserving `.map`), `Json` (JSON values, JavaScript truthiness, property access), `Http` (the 2xx range and responses) and `Decimal` (printing the status code and reading it back).

Some names differ from the source:

- The page's hidden control position (request in flight, timer scheduled, timer fired) is an explicit `phase` field next to the three state variables.
- Network results are abstract outcome datatypes (`App.FetchResult`, `Server.Upstream`).
- The random draws are a sequence parameter (`Server.Draw`).
- The classifier is a function parameter (`MlApi.Model`).

The page keeps no prediction state and never requests a prediction. It has no risk-score colour bands: hotspots are coloured by disease alone. It keeps no request sequence numbers, validates no required fields (it stores whatever JSON a 2xx response carries), and does not tag errors as network or HTTP failures: every error is just a message.

The server's `PythonPredictionResponse` declares a `seaborn_plot` field, but the Python service sends `feature_importance_plot` and `confusion_matrix_plot`. Because unknown fields are ignored, the server always forwards a null `seaborn_plot` (`Pipeline.SeabornPlotNeverForwarded`).

## Model

| member | source | states |
|---|---|---|
| `Base.MapSeq` | client/src/components/SymptonChart.jsx:28 | `xs.map(f)` yields one element per input, in input order, each the image of the input at the same position |
| `Decimal.Show` | client/src/App.jsx:22 | the status code prints as a non-empty run of digits with no leading zero |
| `Decimal.ParseShow` | client/src/App.jsx:22 | the printed status reads back as the same number, so the message loses nothing |
| `Decimal.ShowInjective` | client/src/App.jsx:22 | distinct status codes produce distinct messages |
| `App.TryFetch` | client/src/App.jsx:18-28 | the try block yields data exactly for a 2xx response whose body parsed, and then that body verbatim; a non-2xx status throws exactly "HTTP error! Status: <status>", whatever the body; a network rejection throws its own message; a 2xx body that does not parse throws the parser's message |
| `App.Step` | client/src/App.jsx:17-34 | settling while in flight schedules the timer and stores the parsed body (a JSON `null` leaves the data null) or the thrown message, leaving the other untouched; the scheduled timer clears `loading`; any other event changes nothing; so the request is never reissued and `loading` never returns to true |
| `App.RunKeepsConsistent` | client/src/App.jsx:11-34 | every event sequence preserves the page invariant: nothing stored while in flight, data and error never both set, data never a JSON `null`, and `loading` until the timer fires |
| `App.Reachable` | client/src/App.jsx:11-34 | every state reachable from mount satisfies that invariant, so `dashboardData` and `error` are never both set |
| `App.SettledIsFinal` | client/src/App.jsx:16-38 | once the request has settled, no later event changes data or error |
| `App.SettlementDecides` | client/src/App.jsx:20-34 | whatever follows the settlement, a thrown message stays the error with no data, and a parsed body stays the data with no error; exactly one is set unless the body was JSON `null`, which leaves both null |
| `App.LoadingStaysCleared` | client/src/App.jsx:29-34 | once `loading` is false, no sequence of events makes it true again |
| `App.NoSecondFetch` | client/src/App.jsx:16-38 | after the single request has settled, no sequence of events puts a request in flight again |
| `App.RenderContent` | client/src/App.jsx:41-77 | the spinner iff loading; else the error view iff the error is a non-empty string, showing it; else the dashboard iff the data is truthy, showing it; else nothing |
| `App.InitialRender` | client/src/App.jsx:11-13 | the first render, before any event, is the spinner |
| `App.FailedLoadShowsStatus` | client/src/App.jsx:20-34 | a non-2xx answer leaves no data and, after the timer, shows exactly "HTTP error! Status: <status>" whatever the body held |
| `App.SuccessfulLoadShowsData` | client/src/App.jsx:20-34 | a 2xx answer with a parsed body stores it unchecked with no error (a JSON `null` leaves the data null), and after the timer shows the dashboard for it if it is truthy, else nothing |
| `App.ThrownLoadShowsMessage` | client/src/App.jsx:20-34 | whatever is thrown (network rejection, unparsable body, status error), after the timer there is no data, the error is the message, and the error view shows it unless it is empty, in which case nothing is shown |
| `App.StatusMessageNamesStatus` | client/src/App.jsx:22 | the error message is the fixed prefix followed by digits that read back as the status code |
| `App.DashboardLayout` | client/src/App.jsx:49-74 | two tiles: "Total Cases" showing `total_cases` verbatim with "+12% from last week" and not a warning, then "Active Alerts" showing `active_alerts` verbatim with "High Priority" and the only warning tile; chart, map and feed receive `symptom_data`, `map_hotspots` and `alerts` |
| `HotspotMap.DiseaseColor` | client/src/components/HotspotMap.jsx:8-21 | a disease in the palette gets its palette colour; the result is grey exactly when the name matches none of the four palette names |
| `HotspotMap.PaletteDistinct` | client/src/components/HotspotMap.jsx:9-19 | the four named diseases have pairwise distinct colours, none of them the grey default |
| `HotspotMap.CaseVariantIsGrey` | client/src/components/HotspotMap.jsx:18-19 | matching is case-sensitive: "cholera" is drawn grey |
| `HotspotMap.Radius` | client/src/components/HotspotMap.jsx:37 | a non-negative case count gives a radius of at least 5 |
| `HotspotMap.RadiusInvertible` | client/src/components/HotspotMap.jsx:37 | the radius determines the case count it was drawn from, so no clamping occurs |
| `HotspotMap.RadiusStrictlyIncreasing` | client/src/components/HotspotMap.jsx:37 | more cases always draw a strictly larger circle |
| `HotspotMap.Markers` | client/src/components/HotspotMap.jsx:33-52 | one marker per hotspot in input order, keyed by id, centred at (lat, lon), stroke and fill both the disease colour, fill opacity 0.7, radius recovering the case count, popup with location, disease and cases |
| `AlertFeed.AlertDetails` | client/src/components/AlertFeed.jsx:5-24 | the critical style iff the type is "critical", the warning style iff "warning", and the info style for "info", any other type and a missing type |
| `AlertFeed.DetailsDistinct` | client/src/components/AlertFeed.jsx:7-22 | the three styles differ pairwise in border colour and icon |
| `AlertFeed.FallbackIsInfo` | client/src/components/AlertFeed.jsx:17-22 | an unrecognised or missing type is styled exactly like "info" |
| `AlertFeed.Items` | client/src/components/AlertFeed.jsx:30-41 | one item per alert in input order, keyed by its index, showing the message verbatim and styled by its type |
| `SymptomChart.Chart` | client/src/components/SymptonChart.jsx:27-44 | exactly one dataset; labels and values are as long as the data, and position i holds the i-th point's label and value |
| `SymptomChart.ChartRoundTrip` | client/src/components/SymptonChart.jsx:27-44 | zipping the labels with the values gives back the original points in order |
| `Server.Generate` | server/src/main.rs:72-82 | after k loop iterations the vector holds k records, the i-th built from iteration i and the i-th draws |
| `Server.GenerateMapData` | server/src/main.rs:53-84 | n records for n >= 0 and none for n <= 0; record i has id i, location i mod 10, disease i mod 4, the drawn risk and cases, and lat/lon equal to the centre plus (draw - 0.5) * 0.25 on each axis; with in-range draws, cases lie in 5..=70, risk in [0, 1) and lat/lon within 0.125 of the centre |
| `Server.GeneratedDiseasesAreKnown` | server/src/main.rs:67-76 | every generated disease is one of "Cholera", "Typhoid", "Hepatitis A", "Diarrhea" |
| `Server.DashboardPayload` | server/src/main.rs:88-132 | total_cases 5432, active_alerts 17, symptom labels May to Oct in order, ten generated hotspots, alert types critical, warning, info in order |
| `Server.DashboardJson` | server/src/main.rs:45-51 | the serialised dashboard carries `total_cases` and `active_alerts` as numbers and `symptom_data`, `map_hotspots` and `alerts` as arrays of the serialised records, in order |
| `Server.GetDashboardData` | server/src/main.rs:86-135 | the handler answers 200 with a JSON object whose `total_cases` is 5432 and `active_alerts` is 17, and whose `symptom_data`, `map_hotspots` and `alerts` are arrays of the payload's points, of the ten generated hotspots and of its alerts, each serialised in order |
| `Server.DecodePrediction` | server/src/main.rs:13-19 | decoding succeeds only on an object or an array. From an object it returns the numeric `prediction` and the string `outbreak_risk`, and `seaborn_plot` is the field's string, absent when the field is missing or null; an object with the two fields and no `seaborn_plot` always decodes. From an array it needs exactly three elements, by position: a number, a string, then null or a string |
| `Server.ArrayFormRelayed` | server/src/main.rs:150-152 | a 2xx body in positional form, `[0.5, "high", null]`, is relayed as 200 with the decoded response |
| `Server.DecodeEncode` | server/src/main.rs:13-19 | what the server serialises decodes back to the same response |
| `Server.UnknownFieldIgnored` | server/src/main.rs:13-19 | adding or changing a field the struct does not declare never changes the decoding |
| `Server.PredictOutbreak` | server/src/main.rs:136-162 | connection failure gives 500 "Failed to connect to Python service"; 200 iff a 2xx answer decodes, echoing it re-serialised; a 2xx answer that does not decode gives 500 "Failed to parse prediction response"; 502 iff the answer is non-2xx, with "Python service error: " and the body text or "Unknown error" |
| `MlApi.Reindex` | ml-api/app.py:167-168 | one cell per listed column in list order; a listed column supplied with a non-null value keeps it, one missing or null becomes 0 |
| `MlApi.ExtraKeysIgnored` | ml-api/app.py:167-168 | requests that agree on every listed column give the same row, so keys outside the list are dropped |
| `MlApi.RowWidth` | ml-api/app.py:26-115 | with the service's 88-name column list every row has 88 cells, and the service as set up around a loaded model answers a request with `features` with the model's value on exactly that row |
| `MlApi.RiskLabel` | ml-api/app.py:181 | "high" iff the probability exceeds 0.3 strictly, "low" iff it does not, so 0.3 itself is "low" |
| `MlApi.RiskLabelMonotone` | ml-api/app.py:181 | raising the probability never lowers the label, and the threshold itself is labelled "low" |
| `MlApi.Predict` | ml-api/app.py:161-185 | without a model: 500 with `{"error": "Model not loaded"}`; a body that is not JSON: 400; a loaded model and a body without `features` (or not an object): 500, the handler raising; 200 iff a model is loaded and the body has `features`, with `prediction` the classifier's probability on the normalised row and `outbreak_risk` the label of that same probability, `feature_importance_plot` and `confusion_matrix_plot` the two plot images, and no `seaborn_plot` field |
| `MlApi.GuardIgnoresRequest` | ml-api/app.py:163-164 | without a model every request gets the same answer, so the guard runs before the body is read |
| `Pipeline.HotspotReadsBack` | server/src/main.rs:27-36 | a serialised server hotspot reaches the map as the same record, with numbers widened and the risk unused |
| `Pipeline.AlertReadsBack` | server/src/main.rs:38-43 | a serialised alert reaches the feed with its type under the renamed `type` key and its message |
| `Pipeline.PointReadsBack` | server/src/main.rs:21-25 | a serialised symptom point reaches the chart with its label and value |
| `Pipeline.GeneratedHotspotsColoured` | server/src/main.rs:67-76 | no hotspot the server generates is drawn in the grey default colour |
| `Pipeline.GeneratedHotspotsAroundMapCenter` | server/src/main.rs:69-80 | with in-range draws, every generated hotspot lies within 0.125 degrees of the map's centre on both axes |
| `Pipeline.ServerAlertsRecognised` | server/src/main.rs:118-131 | every alert type the server emits is one the feed recognises by name, and its three alerts get the critical, warning and info styles in order |
| `Pipeline.PayloadChart` | server/src/main.rs:91-116 | the chart drawn from the server's series has labels May to Oct and values 25, 35, 30, 20, 28, 40 in order |
| `Pipeline.ReadAll` | client/src/components/HotspotMap.jsx:33-52 | reading an array prop element by element succeeds with one value per element, each the element's reading, and fails only when some element cannot be read |
| `Pipeline.ReadAllEncoded` | server/src/main.rs:21-43 | when each record reads back from its serialised form, an array of serialised records reads back as those records, in order |
| `Pipeline.DashboardJsonReadsBack` | server/src/main.rs:45-51 | any serialised dashboard's `symptom_data`, `map_hotspots` and `alerts` arrays read back as the chart, map and feed props of its points, hotspots and alerts |
| `Pipeline.DashboardPropsReadBack` | client/src/App.jsx:66-71 | the props the page hands the chart, map and feed from the served dashboard read back as exactly the payload's points, hotspots and alerts |
| `Pipeline.DashboardEndToEnd` | client/src/App.jsx:16-64 | the server's 200 dashboard response, stored by the page, is rendered once the timer fires, with 5432 and 17 on the tiles and only the alerts tile warning |
| `Pipeline.SeabornPlotNeverForwarded` | server/src/main.rs:13-19 | a successful prediction from the service is relayed as 200 with its prediction and label and a null `seaborn_plot`: the plots never arrive |
| `Pipeline.ModelMissingIsBadGateway` | server/src/main.rs:155-157 | a service without a model makes the server answer 502 with "Python service error: " followed by the body text reqwest read; that text is opaque here and not derived from the service's JSON |
| `Pipeline.ForwardedFeaturesNormalised` | ml-api/app.py:166-168 | the features the server forwards reach the classifier in column order: listed ones keep their number, missing ones are 0, unlisted ones are dropped |

## Left out

- Network and framework plumbing is left out: `fetch`, `reqwest`, Actix routing, CORS, static file serving, the Vite proxy and Flask itself. Their results are the abstract outcomes `App.FetchResult` and `Server.Upstream`. Framework error pages are the opaque `Http.ErrorPage`.
- The 2000 ms delay is the discrete `TimerFired` event; there is no notion of time.
- The random number generator is a sequence of draws. `Server.InRange` states the ranges the generator guarantees.
- Floating point is left out. Latitudes, longitudes, probabilities and the 0.3 threshold are exact reals, so rounding at the threshold is not modelled.
- ML internals are left out. XGBoost loading and `predict_proba` are a total function parameter, so errors the classifier would raise on non-numeric cells are not modelled. The plots and their Base64 encoding are two opaque strings.
- `console.error` logging is left out, because it has no effect on state.
- Pure UI is left out: the sidebar, the header, `StatCard`'s colour ternary (the tile's `isWarning` flag stands for it), chart options, map tiles and markup.
- JSON details are left out: field order, duplicate keys and the non-standard `NaN` and `Infinity` tokens cannot be represented.
- `Json.Get` treats every non-object as having no fields. The page reads properties only of truthy data, so a null dereference cannot occur there.
- The components take well-typed props. `Pipeline` reads those props from the server's JSON. JavaScript coercion of ill-typed fields, and render crashes when a prop is not an array, are left out.
- `Pipeline.Relay`: the body text a relayed error quotes is an independent parameter, because `reqwest` reads the text separately from the JSON, and the model does not serialise JSON back into text.
- Actix's rejection of a malformed request body to `/api/predict` is left out; the page never sends a prediction request.
- React effects running twice in development mode, and a timer firing after unmount, are left out.
- Integer widths are not modelled. Ids and counts are Rust `i32` but stay far below any limit here: the server generates ten hotspots with counts up to 70.
- Two build defects are noted only: the page imports `./components/SymptomChart` while the file is `SymptonChart.jsx`, and `LoadingSpinner` is not part of this model.
