/** The dashboard page (client/src/App.jsx): the `(dashboardData, loading,
    error)` state, the three events that change it, and the choice of the one
    view that `renderContent` shows. */
module App {
  import opened Base
  import opened Json
  import Http
  import Decimal

  /** Where the mount-time `fetchData` closure stands: its single request is in
      flight, its `finally` has scheduled the timer, or the timer has fired. */
  datatype Phase = InFlight | TimerPending | Finished

  /** `dashboardData` is `None` while the variable holds JavaScript `null`. */
  datatype State = State(
    dashboardData: Option<Json>,
    loading: bool,
    error: Option<string>,
    phase: Phase)

  /** What `response.json()` yields: the parsed body, or the message of the
      error it rejects with. */
  datatype Body = Parsed(value: Json) | Malformed(message: string)

  /** How the single `fetch("/api/dashboard-data")` settles: rejected with an
      error message (network failure), or answered with a status and a body. */
  datatype FetchResult = Rejected(message: string) | Responded(status: nat, body: Body)

  datatype Event = FetchSettled(result: FetchResult) | TimerFired

  /** The three `useState` initial values; the effect's empty dependency list
      issues the single request on mount. */
  function Init(): State
  {
    State(None, true, None, InFlight)
  }

  const StatusPrefix: string := "HTTP error! Status: "

  /** The message of the error thrown for a non-2xx response; the body text is
      not part of it. */
  function StatusMessage(status: nat): string
  {
    StatusPrefix + Decimal.Show(status)
  }

  /** The outcome of the `try` block: the parsed data, or the message of
      whatever was thrown inside it. */
  datatype Attempt = Loaded(data: Json) | Thrown(message: string)

  function TryFetch(r: FetchResult): (a: Attempt)
    ensures a.Loaded? <==> r.Responded? && Http.IsSuccess(r.status) && r.body.Parsed?
    ensures a.Loaded? ==> a.data == r.body.value
    ensures r.Responded? && !Http.IsSuccess(r.status) ==> a == Thrown(StatusMessage(r.status))
    ensures r.Rejected? ==> a == Thrown(r.message)
    ensures r.Responded? && Http.IsSuccess(r.status) && r.body.Malformed? ==> a == Thrown(r.body.message)
  {
    match r
    case Rejected(m) => Thrown(m)
    case Responded(status, body) =>
      if !Http.IsSuccess(status) then Thrown(StatusMessage(status))
      else match body
        case Parsed(j) => Loaded(j)
        case Malformed(m) => Thrown(m)
  }

  /** `setDashboardData(data)`: a parsed JSON `null` leaves the variable null. */
  function Stored(j: Json): Option<Json>
  {
    if j == Null then None else Some(j)
  }

  /** One event. The request settles once, while in flight: success stores the
      parsed JSON verbatim, failure stores the message and leaves the data
      alone, and either way the `finally` schedules the timer. The timer is the
      only thing that clears `loading`. An event that cannot happen in the
      current phase changes nothing. */
  function Step(s: State, e: Event): (t: State)
    ensures t.phase == InFlight ==> s.phase == InFlight
    ensures !s.loading ==> !t.loading
    ensures s.loading && !t.loading ==> e.TimerFired? && s.phase == TimerPending
    ensures t.dashboardData != s.dashboardData ==>
      s.phase == InFlight && e.FetchSettled? && TryFetch(e.result).Loaded?
      && t.dashboardData == Stored(TryFetch(e.result).data) && t.error == s.error
    ensures t.error != s.error ==>
      s.phase == InFlight && e.FetchSettled? && TryFetch(e.result).Thrown?
      && t.error == Some(TryFetch(e.result).message) && t.dashboardData == s.dashboardData
    ensures s.phase == InFlight && e.FetchSettled? ==>
      && t.phase == TimerPending && t.loading == s.loading
      && (TryFetch(e.result).Loaded? ==>
            t.dashboardData == Stored(TryFetch(e.result).data) && t.error == s.error)
      && (TryFetch(e.result).Thrown? ==>
            t.error == Some(TryFetch(e.result).message) && t.dashboardData == s.dashboardData)
    ensures s.phase == TimerPending && e.TimerFired? ==>
      && !t.loading && t.phase == Finished
      && t.dashboardData == s.dashboardData && t.error == s.error
    ensures !(s.phase == InFlight && e.FetchSettled?) && !(s.phase == TimerPending && e.TimerFired?) ==> t == s
  {
    match e
    case FetchSettled(r) =>
      if s.phase != InFlight then s
      else (
        match TryFetch(r)
        case Loaded(j) => s.(dashboardData := Stored(j), phase := TimerPending)
        case Thrown(m) => s.(error := Some(m), phase := TimerPending))
    case TimerFired =>
      if s.phase != TimerPending then s
      else s.(loading := false, phase := Finished)
  }

  /** A sequence of events applied in order. */
  function Run(s: State, es: seq<Event>): State
    decreases |es|
  {
    if es == [] then s else Run(Step(s, es[0]), es[1..])
  }

  /** The states the page can be in. Before the request settles nothing is
      stored; afterwards data and error are never both set; the data is never
      a JSON `null`; `loading` is true exactly until the timer has fired. */
  ghost predicate Consistent(s: State)
  {
    && (s.loading <==> s.phase != Finished)
    && (s.phase == InFlight ==> s.dashboardData.None? && s.error.None?)
    && !(s.dashboardData.Some? && s.error.Some?)
    && s.dashboardData != Some(Null)
  }

  lemma {:induction false} RunKeepsConsistent(s: State, es: seq<Event>)
    requires Consistent(s)
    ensures Consistent(Run(s, es))
    decreases |es|
  {
    if es != [] {
      var t := Step(s, es[0]);
      assert Consistent(t) by {
        match es[0]
        case FetchSettled(r) =>
        case TimerFired =>
      }
      RunKeepsConsistent(t, es[1..]);
    }
  }

  /** Every state reachable from mount is consistent: in particular,
      `dashboardData` and `error` are never both set. */
  lemma Reachable(es: seq<Event>)
    ensures Consistent(Run(Init(), es))
  {
    RunKeepsConsistent(Init(), es);
  }

  /** After the request has settled, no event touches data or error again. */
  lemma {:induction false} SettledIsFinal(s: State, es: seq<Event>)
    requires s.phase != InFlight
    ensures Run(s, es).dashboardData == s.dashboardData
    ensures Run(s, es).error == s.error
    decreases |es|
  {
    if es != [] {
      SettledIsFinal(Step(s, es[0]), es[1..]);
    }
  }

  /** Whatever follows the settlement, a thrown message is kept as the error
      with no data, and a parsed body is kept as the data with no error, unless
      it was JSON `null`, which leaves both null. So exactly one is set unless
      the body was `null`. */
  lemma SettlementDecides(r: FetchResult, es: seq<Event>)
    ensures var s := Run(Init(), [FetchSettled(r)] + es);
      && (TryFetch(r).Thrown? ==> s.error == Some(TryFetch(r).message) && s.dashboardData.None?)
      && (TryFetch(r).Loaded? ==> s.dashboardData == Stored(TryFetch(r).data) && s.error.None?)
      && ((s.dashboardData.Some? || s.error.Some?) <==> TryFetch(r) != Loaded(Null))
  {
    var s1 := Step(Init(), FetchSettled(r));
    assert ([FetchSettled(r)] + es)[1..] == es;
    SettledIsFinal(s1, es);
  }

  /** `loading` never comes back once cleared, whatever happens next. */
  lemma {:induction false} LoadingStaysCleared(s: State, es: seq<Event>)
    requires !s.loading
    ensures !Run(s, es).loading
    decreases |es|
  {
    if es != [] {
      LoadingStaysCleared(Step(s, es[0]), es[1..]);
    }
  }

  /** The request is issued once: no sequence of events puts the closure back
      in flight after it has left that phase. */
  lemma {:induction false} NoSecondFetch(s: State, es: seq<Event>)
    requires s.phase != InFlight
    ensures Run(s, es).phase != InFlight
    decreases |es|
  {
    if es != [] {
      NoSecondFetch(Step(s, es[0]), es[1..]);
    }
  }

  /** What `renderContent` returns. */
  datatype View = Spinner | ErrorView(message: string) | DashboardView(data: Json) | Nothing

  /** `if (error)`: a set, non-empty message. */
  predicate ShowsError(s: State)
  {
    s.error.Some? && s.error.value != ""
  }

  /** `if (dashboardData)`: set and truthy. */
  predicate ShowsData(s: State)
  {
    s.dashboardData.Some? && Truthy(s.dashboardData.value)
  }

  /** The strict priority: loading first, then error, then data, else nothing. */
  function RenderContent(s: State): (v: View)
    ensures v.Spinner? <==> s.loading
    ensures v.ErrorView? <==> !s.loading && ShowsError(s)
    ensures v.ErrorView? ==> v.message == s.error.value
    ensures v.DashboardView? <==> !s.loading && !ShowsError(s) && ShowsData(s)
    ensures v.DashboardView? ==> v.data == s.dashboardData.value
    ensures v.Nothing? <==> !s.loading && !ShowsError(s) && !ShowsData(s)
  {
    if s.loading then Spinner
    else if ShowsError(s) then ErrorView(s.error.value)
    else if ShowsData(s) then DashboardView(s.dashboardData.value)
    else Nothing
  }

  /** The first render, before anything has happened, is the spinner. */
  lemma InitialRender()
    ensures RenderContent(Init()) == Spinner
  {
  }

  /** A non-2xx answer, once the timer has fired, shows exactly
      "HTTP error! Status: <status>", whatever the body held, and no data. */
  lemma FailedLoadShowsStatus(status: nat, body: Body)
    requires !Http.IsSuccess(status)
    ensures var s := Run(Init(), [FetchSettled(Responded(status, body)), TimerFired]);
      s.dashboardData.None? && RenderContent(s) == ErrorView(StatusMessage(status))
  {
    var s1 := Step(Init(), FetchSettled(Responded(status, body)));
    assert Run(Init(), [FetchSettled(Responded(status, body)), TimerFired])
      == Run(s1, [TimerFired]);
  }

  /** A 2xx answer with a parsed body, once the timer has fired, shows the
      dashboard for exactly that body when it is truthy, and nothing when it
      is not; no field is checked. */
  lemma SuccessfulLoadShowsData(status: nat, data: Json)
    requires Http.IsSuccess(status)
    ensures var s := Run(Init(), [FetchSettled(Responded(status, Parsed(data))), TimerFired]);
      s.error.None? && s.dashboardData == Stored(data)
      && RenderContent(s) == (if Truthy(data) then DashboardView(data) else Nothing)
  {
    var s1 := Step(Init(), FetchSettled(Responded(status, Parsed(data))));
    assert Run(Init(), [FetchSettled(Responded(status, Parsed(data))), TimerFired])
      == Run(s1, [TimerFired]);
  }

  /** Whatever is thrown (a network rejection, a body that does not parse, the
      status error), once the timer has fired there is no data and the
      message is shown, unless it is empty, in which case nothing is. */
  lemma ThrownLoadShowsMessage(r: FetchResult)
    requires TryFetch(r).Thrown?
    ensures var m := TryFetch(r).message;
      var s := Run(Init(), [FetchSettled(r), TimerFired]);
      && s.dashboardData.None? && s.error == Some(m)
      && RenderContent(s) == (if m != "" then ErrorView(m) else Nothing)
  {
    var s1 := Step(Init(), FetchSettled(r));
    assert Run(Init(), [FetchSettled(r), TimerFired]) == Run(s1, [TimerFired]);
  }

  /** The status message names the status: it starts with the fixed prefix and
      what follows reads back as the status code. */
  lemma StatusMessageNamesStatus(status: nat)
    ensures var m := StatusMessage(status);
      |StatusPrefix| < |m| && m[..|StatusPrefix|] == StatusPrefix
      && Decimal.AllDigits(m[|StatusPrefix|..]) && Decimal.Parse(m[|StatusPrefix|..]) == status
  {
    var m := StatusMessage(status);
    assert m[|StatusPrefix|..] == Decimal.Show(status);
    Decimal.ParseShow(status);
  }

  /** One stat tile: `<StatCard title value change isWarning>`. */
  datatype Tile = Tile(title: string, value: Option<Json>, change: string, isWarning: bool)

  /** The dashboard branch: two stat tiles, then the chart, map and alert feed,
      each handed the matching property of the stored data. */
  datatype Layout = Layout(
    tiles: seq<Tile>,
    symptomData: Option<Json>,
    hotspots: Option<Json>,
    alerts: Option<Json>)

  function DashboardLayout(data: Json): (l: Layout)
    ensures |l.tiles| == 2
    ensures l.tiles[0].title == "Total Cases" && !l.tiles[0].isWarning
    ensures l.tiles[1].title == "Active Alerts" && l.tiles[1].isWarning
    ensures l.tiles[0].change == "+12% from last week" && l.tiles[1].change == "High Priority"
    ensures l.tiles[0].value == Get(data, "total_cases")
    ensures l.tiles[1].value == Get(data, "active_alerts")
    ensures forall i :: 0 <= i < |l.tiles| ==> (l.tiles[i].isWarning <==> l.tiles[i].title == "Active Alerts")
    ensures l.symptomData == Get(data, "symptom_data")
    ensures l.hotspots == Get(data, "map_hotspots")
    ensures l.alerts == Get(data, "alerts")
  {
    Layout(
      [ Tile("Total Cases", Get(data, "total_cases"), "+12% from last week", false),
        Tile("Active Alerts", Get(data, "active_alerts"), "High Priority", true) ],
      Get(data, "symptom_data"),
      Get(data, "map_hotspots"),
      Get(data, "alerts"))
  }
}
