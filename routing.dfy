/** The routes of server.js: five pages, four JSON endpoints and one generic
    page per placeholder section, looked up the way Express does it: the first
    registered route whose path equals the request path handles the request. */
module Routing {
  import opened Wrappers
  import opened Strings
  import opened MockData
  import opened Layout

  const User: string := "Sai Nitish Kumar Reddy"

  /** The pages the server renders: five named ones and the generic section
      page, which carries its section name. */
  datatype Page = DashboardPage | CustomersPage | OrdersPage | ValetsPage | ReportsPage | SectionPage(name: string)

  /** The JSON endpoints. */
  datatype Endpoint = CustomersApi | OrdersApi | ValetsApi | ReportsApi

  /** What a route does: render a page through the layout, or send the JSON
      of an endpoint. */
  datatype Handler = RenderPage(page: Page) | SendJson(endpoint: Endpoint)

  datatype Route = Route(path: string, handler: Handler)

  /** The placeholder sections, in registration order. */
  const Sections: seq<string> := [
    "sms", "receipts", "issues", "vendors", "routes", "cleaner-tickets",
    "work-items", "garment-finder", "receive-garments", "valet-feedback",
    "internal-feedback-tools", "delivery-prep", "payments", "dispatch",
    "bag-tags", "racks", "scans", "rack-load-out", "rack-load-in",
    "admin", "email-previews", "sop-guide", "hr"]

  /** A section's display title: the first character upper-cased, every `-`
      after it replaced by a space, nothing added or removed. */
  function Title(name: string): (t: string)
    ensures |t| == |name|
    ensures |name| > 0 ==> t[0] == UpperChar(name[0])
    ensures forall i :: 1 <= i < |name| ==> t[i] == DashToSpace(name[i])
  {
    if name == [] then [] else [UpperChar(name[0])] + ReplaceDashes(name[1..])
  }

  /** No `-` survives after the first position; a leading `-` is kept, since
      only the rest of the name goes through the replacement. */
  lemma TitleDashes(name: string)
    ensures forall i :: 1 <= i < |Title(name)| ==> Title(name)[i] != '-'
    ensures |name| > 0 && name[0] == '-' ==> Title(name)[0] == '-'
  {
  }

  /** An empty name gives an empty title. */
  lemma TitleOfEmpty()
    ensures Title("") == ""
  {
  }

  /** `cleaner-tickets` is shown as `Cleaner tickets`. */
  lemma TitleExample()
    ensures Title("cleaner-tickets") == "Cleaner tickets"
  {
    var t := Title("cleaner-tickets");
    forall i | 0 <= i < |t|
      ensures t[i] == "Cleaner tickets"[i]
    {
    }
  }

  /** A name that does not start with `-` gives a title without `-`. */
  lemma TitleNoDash(name: string)
    requires |name| > 0 ==> name[0] != '-'
    ensures '-' !in Title(name)
  {
    TitleDashes(name);
    if |name| > 0 {
      assert Title(name)[0] == UpperChar(name[0]) != '-';
    }
  }

  /** No section title holds a `-`: none of the names starts with one. */
  lemma SectionTitlesHaveNoDash()
    ensures forall s :: s in Sections ==> '-' !in Title(s)
  {
    forall s | s in Sections
      ensures '-' !in Title(s)
    {
      assert |s| > 0 && IsLower(s[0]);
      TitleNoDash(s);
    }
  }

  /** The template each page is rendered from. */
  function View(page: Page): string
  {
    match page
    case DashboardPage => "dashboard"
    case CustomersPage => "customers"
    case OrdersPage => "orders"
    case ValetsPage => "valets"
    case ReportsPage => "reports"
    case SectionPage(_) => "section"
  }

  /** The fixed data each page is rendered with: every page gets a title and
      the signed-in user; a section page's title is `Title` of its name. */
  function PageData(page: Page): (d: Context)
    ensures "title" in d && "user" in d && d["user"] == Str(User)
    ensures page.SectionPage? ==>
      d.Keys == {"title", "user", "section"} && d["title"] == Str(Title(page.name)) && d["section"] == Str(page.name)
  {
    match page
    case DashboardPage =>
      map["title" := Str("SWASH Internal Portal"), "user" := Str(User), "reports" := ReportsJson(TheReports)]
    case CustomersPage =>
      map["title" := Str("Customers"), "user" := Str(User), "customers" := CustomersJson()]
    case OrdersPage =>
      map["title" := Str("Orders"), "user" := Str(User), "orders" := OrdersJson()]
    case ValetsPage =>
      map["title" := Str("Valets"), "user" := Str(User), "valets" := ValetsJson()]
    case ReportsPage =>
      map["title" := Str("Reports"), "user" := Str(User), "reports" := ReportsJson(TheReports),
          "customers" := CustomersJson(), "orders" := OrdersJson()]
    case SectionPage(name) =>
      map["title" := Str(Title(name)), "user" := Str(User), "section" := Str(name)]
  }

  /** The value each endpoint sends: an array for each collection, and for the
      summary an object that decodes back to the summary. */
  function Payload(endpoint: Endpoint): (v: Value)
    ensures v.Arr? <==> endpoint != ReportsApi
    ensures endpoint == ReportsApi ==> ReportsFromJson(v) == Some(TheReports)
  {
    match endpoint
    case CustomersApi => CustomersJson()
    case OrdersApi => OrdersJson()
    case ValetsApi => ValetsJson()
    case ReportsApi => ReportsRoundTrip(TheReports); ReportsJson(TheReports)
  }

  /** Each collection page holds the array its endpoint sends. */
  lemma CollectionPagesMatchApi()
    ensures var d := PageData(CustomersPage); "customers" in d && d["customers"] == Payload(CustomersApi)
    ensures var d := PageData(OrdersPage); "orders" in d && d["orders"] == Payload(OrdersApi)
    ensures var d := PageData(ValetsPage); "valets" in d && d["valets"] == Payload(ValetsApi)
  {
  }

  /** The dashboard and the reports page hold the summary `/api/reports` sends. */
  lemma SummaryPagesMatchApi()
    ensures var d := PageData(DashboardPage); "reports" in d && d["reports"] == Payload(ReportsApi)
    ensures var d := PageData(ReportsPage); "reports" in d && d["reports"] == Payload(ReportsApi)
  {
    ReportsEndpointSendsSummary();
  }

  /** The reports page also holds the customers and orders arrays their
      endpoints send. */
  lemma ReportsPageCollectionsMatchApi()
    ensures var d := PageData(ReportsPage);
      && "customers" in d && d["customers"] == Payload(CustomersApi)
      && "orders" in d && d["orders"] == Payload(OrdersApi)
  {
  }

  function SectionRoute(name: string): Route
  {
    Route("/" + name, RenderPage(SectionPage(name)))
  }

  function SectionRoutes(names: seq<string>): (rs: seq<Route>)
    ensures |rs| == |names|
    ensures forall i :: 0 <= i < |names| ==> rs[i] == SectionRoute(names[i])
  {
    seq(|names|, i requires 0 <= i < |names| => SectionRoute(names[i]))
  }

  /** The page and API routes, in registration order. */
  const NamedRoutes: seq<Route> := [
    Route("/", RenderPage(DashboardPage)),
    Route("/customers", RenderPage(CustomersPage)),
    Route("/orders", RenderPage(OrdersPage)),
    Route("/valets", RenderPage(ValetsPage)),
    Route("/reports", RenderPage(ReportsPage)),
    Route("/api/customers", SendJson(CustomersApi)),
    Route("/api/orders", SendJson(OrdersApi)),
    Route("/api/valets", SendJson(ValetsApi)),
    Route("/api/reports", SendJson(ReportsApi))
  ]

  /** Every route of the application, in the order server.js registers them. */
  function RouteTable(): seq<Route>
  {
    NamedRoutes + SectionRoutes(Sections)
  }

  /** The handler of the first route registered for `path`, None when no route
      has that path (Express then answers 404). */
  function FirstMatch(routes: seq<Route>, path: string): (r: Option<Handler>)
    ensures r.None? <==> forall i :: 0 <= i < |routes| ==> routes[i].path != path
    ensures r.Some? ==>
      exists k :: && 0 <= k < |routes| && routes[k] == Route(path, r.value)
                  && forall j :: 0 <= j < k ==> routes[j].path != path
  {
    if routes == [] then None
    else if routes[0].path == path then Some(routes[0].handler)
    else FirstMatch(routes[1..], path)
  }

  /** Routes registered earlier win: matching in `a + b` finds `a`'s match
      when `a` has one, and only otherwise looks in `b`. */
  lemma {:induction false} FirstMatchAppend(a: seq<Route>, b: seq<Route>, path: string)
    ensures FirstMatch(a + b, path) == if FirstMatch(a, path).Some? then FirstMatch(a, path) else FirstMatch(b, path)
  {
    if a != [] {
      assert (a + b)[0] == a[0];
      assert (a + b)[1..] == a[1..] + b;
      FirstMatchAppend(a[1..], b, path);
    } else {
      assert a + b == b;
    }
  }

  /** A route no earlier route shadows is the one its path dispatches to. */
  lemma {:induction false} FirstMatchAt(routes: seq<Route>, k: nat)
    requires k < |routes|
    requires forall j :: 0 <= j < k ==> routes[j].path != routes[k].path
    ensures FirstMatch(routes, routes[k].path) == Some(routes[k].handler)
  {
    if k > 0 {
      assert routes[0].path != routes[k].path;
      FirstMatchAt(routes[1..], k - 1);
    }
  }

  predicate DistinctPaths(routes: seq<Route>)
  {
    forall i, j :: 0 <= i < j < |routes| ==> routes[i].path != routes[j].path
  }

  /** With distinct paths, each route is the one that serves its own path. */
  lemma FirstMatchFindsRoute(routes: seq<Route>, k: nat)
    requires DistinctPaths(routes)
    requires k < |routes|
    ensures FirstMatch(routes, routes[k].path) == Some(routes[k].handler)
  {
  }

  /** The section names are pairwise distinct. */
  lemma SectionsDistinct()
    ensures |Sections| == 23
    ensures forall i, j :: 0 <= i < j < |Sections| ==> Sections[i] != Sections[j]
  {
  }

  /** The paths of the named routes with their leading `/` removed. */
  const NamedSuffixes: seq<string> := [
    "", "customers", "orders", "valets", "reports",
    "api/customers", "api/orders", "api/valets", "api/reports"]

  /** No section takes a path that a page or an API route already has: no
      name is empty, none is `customers`, `orders`, `valets` or `reports`, and
      none is an API path. */
  lemma SectionsAvoidNamedRoutes()
    ensures forall i :: 0 <= i < |Sections| ==> Sections[i] !in NamedSuffixes
  {
  }

  /** Each named route's path is `/` followed by its suffix. */
  lemma NamedPaths()
    ensures |NamedRoutes| == |NamedSuffixes| == 9
    ensures forall k :: 0 <= k < 9 ==> NamedRoutes[k].path == "/" + NamedSuffixes[k]
  {
    forall k | 0 <= k < 9 ensures NamedRoutes[k].path == "/" + NamedSuffixes[k] {
      if k == 0 {
        assert "/" + "" == "/";
      }
    }
  }

  /** Where each route of the table comes from. */
  lemma RouteAt(k: nat)
    requires k < |RouteTable()|
    ensures |RouteTable()| == 9 + |Sections|
    ensures k < 9 ==> RouteTable()[k] == NamedRoutes[k] && RouteTable()[k].path == "/" + NamedSuffixes[k]
    ensures k >= 9 ==> Sections[k - 9] in Sections && RouteTable()[k] == SectionRoute(Sections[k - 9])
  {
    NamedPaths();
  }

  /** All 32 route paths differ, so dispatch picks a route by path alone,
      whatever the registration order. */
  lemma RoutePathsDistinct()
    ensures DistinctPaths(RouteTable())
  {
    var t := RouteTable();
    SectionsDistinct();
    SectionsAvoidNamedRoutes();
    forall i, j | 0 <= i < j < |t| ensures t[i].path != t[j].path {
      RouteAt(i);
      RouteAt(j);
      var a := if i < 9 then NamedSuffixes[i] else Sections[i - 9];
      var b := if j < 9 then NamedSuffixes[j] else Sections[j - 9];
      assert t[i].path == "/" + a && t[j].path == "/" + b;
      assert a != b;
      assert ("/" + a)[1..] == a && ("/" + b)[1..] == b;
    }
  }

  /** The handler Express runs for a GET of `path`. */
  function Dispatch(path: string): Option<Handler>
  {
    FirstMatch(RouteTable(), path)
  }

  /** Each section name `s` is served at `/s` by the generic section view with
      its derived title. */
  lemma SectionServed(s: string)
    requires s in Sections
    ensures Dispatch("/" + s) == Some(RenderPage(SectionPage(s)))
  {
    var k :| 0 <= k < |Sections| && Sections[k] == s;
    RouteAt(9 + k);
    RoutePathsDistinct();
    FirstMatchFindsRoute(RouteTable(), 9 + k);
  }

  /** The reports endpoint sends the JSON of the reports summary. */
  lemma ReportsEndpointSendsSummary()
    ensures Payload(ReportsApi) == ReportsJson(TheReports)
  {
  }

  /** `/api/reports` is served by the reports endpoint. */
  lemma ApiReportsServed()
    ensures Dispatch("/api/reports") == Some(SendJson(ReportsApi))
  {
    forall j | 0 <= j < 8
      ensures RouteTable()[j].path != RouteTable()[8].path
    {
      RouteAt(j);
      RouteAt(8);
    }
    FirstMatchAt(RouteTable(), 8);
    RouteAt(8);
  }

  /** The paths with a route: nine named ones and one per section. Any other
      path finds no handler. */
  lemma ServedPaths(path: string)
    ensures Dispatch(path).Some? <==>
      || (exists i :: 0 <= i < |NamedSuffixes| && path == "/" + NamedSuffixes[i])
      || (exists s :: s in Sections && path == "/" + s)
  {
    if exists s :: s in Sections && path == "/" + s {
      var s :| s in Sections && path == "/" + s;
      SectionServed(s);
    } else if exists i :: 0 <= i < |NamedSuffixes| && path == "/" + NamedSuffixes[i] {
      var i :| 0 <= i < |NamedSuffixes| && path == "/" + NamedSuffixes[i];
      RouteAt(i);
    } else if Dispatch(path).Some? {
      var k :| 0 <= k < |RouteTable()| && RouteTable()[k].path == path;
      RouteAt(k);
    }
  }

  /** What a GET of `path` answers, None for a path with no route. */
  function Serve(views: map<string, string>, render: Renderer, path: string): Option<Response>
  {
    match Dispatch(path)
    case None => None
    case Some(RenderPage(page)) => Some(LayoutOutcome(views, render, View(page), PageData(page)))
    case Some(SendJson(endpoint)) => Some(Response(200, Json(Payload(endpoint))))
  }

  /** Express's application: the routes registered with `app.get`, in order. */
  class App {
    var routes: seq<Route>

    constructor ()
      ensures routes == []
    {
      routes := [];
    }

    /** `app.get(path, handler)` */
    method Get(path: string, handler: Handler)
      modifies this
      ensures routes == old(routes) + [Route(path, handler)]
    {
      routes := routes + [Route(path, handler)];
    }
  }

  /** `sections.forEach(section => app.get('/' + section, ...))` */
  method RegisterSections(app: App, names: seq<string>)
    modifies app
    ensures app.routes == old(app.routes) + SectionRoutes(names)
  {
    for i := 0 to |names|
      invariant app.routes == old(app.routes) + SectionRoutes(names[..i])
    {
      app.Get("/" + names[i], RenderPage(SectionPage(names[i])));
      assert SectionRoutes(names[..i + 1]) == SectionRoutes(names[..i]) + [SectionRoute(names[i])];
    }
    assert names[..|names|] == names;
  }

  /** Start-up: every route of server.js, registered in source order. */
  method CreateApp() returns (app: App)
    ensures fresh(app)
    ensures app.routes == RouteTable()
  {
    app := new App();
    app.Get("/", RenderPage(DashboardPage));
    app.Get("/customers", RenderPage(CustomersPage));
    app.Get("/orders", RenderPage(OrdersPage));
    app.Get("/valets", RenderPage(ValetsPage));
    app.Get("/reports", RenderPage(ReportsPage));
    app.Get("/api/customers", SendJson(CustomersApi));
    app.Get("/api/orders", SendJson(OrdersApi));
    app.Get("/api/valets", SendJson(ValetsApi));
    app.Get("/api/reports", SendJson(ReportsApi));
    assert app.routes == NamedRoutes;
    RegisterSections(app, Sections);
  }

  /** A GET request: the first matching route's handler runs on a fresh
      response, which ends with exactly one body sent. */
  method HandleGet(app: App, views: map<string, string>, render: Renderer, path: string)
    returns (res: Res, found: bool)
    requires app.routes == RouteTable()
    ensures fresh(res)
    ensures found <==> Serve(views, render, path).Some?
    ensures found ==> |res.sent| == 1 && Response(res.statusCode, res.sent[0]) == Serve(views, render, path).value
    ensures !found ==> res.sent == []
  {
    res := new Res();
    var handler := FirstMatch(app.routes, path);
    found := handler.Some?;
    if found {
      match handler.value
      case RenderPage(page) =>
        RenderWithLayout(res, views, render, View(page), PageData(page));
      case SendJson(endpoint) =>
        res.SendJson(Payload(endpoint));
    }
  }
}
