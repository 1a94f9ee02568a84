/** The server's fixed, in-memory catalogue (server.js, `mockData`) and the JSON
    values it is sent as. */
module MockData {
  import opened Wrappers

  /** A JSON value as `res.json` serialises it and `response.json()` parses it
      back; object fields keep their insertion order. */
  datatype Value =
    | Num(n: int)
    | Str(s: string)
    | Arr(items: seq<Value>)
    | Obj(fields: seq<(string, Value)>)

  /** `v[key]` in JavaScript: the value of the last field named `key` of an
      object (a parsed object keeps the last of duplicate keys), `undefined`
      (None) when there is none or `v` is not an object. */
  function Field(v: Value, key: string): (r: Option<Value>)
    ensures r.Some? ==> v.Obj? && (key, r.value) in v.fields
    ensures r.None? ==> !v.Obj? || forall f :: f in v.fields ==> f.0 != key
  {
    if v.Obj? then LastField(v.fields, key) else None
  }

  /** The value of the last field named `key`. */
  function LastField(fields: seq<(string, Value)>, key: string): (r: Option<Value>)
    ensures r.Some? ==> (key, r.value) in fields
    ensures r.None? ==> forall f :: f in fields ==> f.0 != key
  {
    if fields == [] then None
    else if fields[|fields| - 1].0 == key then Some(fields[|fields| - 1].1)
    else LastField(fields[..|fields| - 1], key)
  }

  /** JavaScript truthiness of `v[key]`: `undefined`, `0` and `""` are falsy,
      every other value (objects and arrays included) is truthy. */
  predicate Truthy(v: Option<Value>)
    ensures Truthy(v) ==> v.Some?
    ensures v == Some(Num(0)) || v == Some(Str("")) ==> !Truthy(v)
  {
    match v
    case None => false
    case Some(Num(n)) => n != 0
    case Some(Str(s)) => s != ""
    case Some(_) => true
  }

  datatype Customer = Customer(id: nat, name: string, email: string, phone: string, orders: nat)
  datatype Order = Order(id: nat, customer: string, service: string, status: string, date: string)
  datatype Valet = Valet(id: nat, name: string, route: string, status: string, deliveries: nat)
  datatype Reports = Reports(dailyOrders: int, monthlyRevenue: int, activeCustomers: int, pendingIssues: int)

  const Customers: seq<Customer> := [
    Customer(1, "John Doe", "john@example.com", "555-0123", 5),
    Customer(2, "Jane Smith", "jane@example.com", "555-0124", 3),
    Customer(3, "Bob Johnson", "bob@example.com", "555-0125", 8)
  ]

  const Orders: seq<Order> := [
    Order(1, "John Doe", "Dry Cleaning", "In Progress", "2024-01-15"),
    Order(2, "Jane Smith", "Laundry", "Completed", "2024-01-14"),
    Order(3, "Bob Johnson", "Alterations", "Pending", "2024-01-16")
  ]

  const Valets: seq<Valet> := [
    Valet(1, "Mike Wilson", "Downtown", "Active", 12),
    Valet(2, "Sarah Davis", "Uptown", "Active", 8),
    Valet(3, "Tom Brown", "Suburbs", "Off Duty", 15)
  ]

  const TheReports: Reports := Reports(45, 12500, 234, 3)

  /** The four keys of the reports summary, in their declaration order. */
  const ReportKeys: seq<string> := ["dailyOrders", "monthlyRevenue", "activeCustomers", "pendingIssues"]

  function CustomerJson(c: Customer): Value
  {
    Obj([("id", Num(c.id)), ("name", Str(c.name)), ("email", Str(c.email)),
         ("phone", Str(c.phone)), ("orders", Num(c.orders))])
  }

  function OrderJson(o: Order): Value
  {
    Obj([("id", Num(o.id)), ("customer", Str(o.customer)), ("service", Str(o.service)),
         ("status", Str(o.status)), ("date", Str(o.date))])
  }

  function ValetJson(v: Valet): Value
  {
    Obj([("id", Num(v.id)), ("name", Str(v.name)), ("route", Str(v.route)),
         ("status", Str(v.status)), ("deliveries", Num(v.deliveries))])
  }

  function ReportsJson(r: Reports): Value
  {
    Obj([("dailyOrders", Num(r.dailyOrders)), ("monthlyRevenue", Num(r.monthlyRevenue)),
         ("activeCustomers", Num(r.activeCustomers)), ("pendingIssues", Num(r.pendingIssues))])
  }

  /** The three collections as the JSON arrays `res.json` sends. */
  function CustomersJson(): Value
  {
    Arr(seq(|Customers|, i requires 0 <= i < |Customers| => CustomerJson(Customers[i])))
  }

  function OrdersJson(): Value
  {
    Arr(seq(|Orders|, i requires 0 <= i < |Orders| => OrderJson(Orders[i])))
  }

  function ValetsJson(): Value
  {
    Arr(seq(|Valets|, i requires 0 <= i < |Valets| => ValetJson(Valets[i])))
  }

  /** The inverse of `ReportsJson`: the summary a JSON value encodes, when all
      four keys hold numbers, each field being the number under its key. */
  function ReportsFromJson(v: Value): (r: Option<Reports>)
    ensures r.Some? <==> forall k :: k in ReportKeys ==> Field(v, k).Some? && Field(v, k).value.Num?
    ensures r.Some? ==>
      && Field(v, "dailyOrders") == Some(Num(r.value.dailyOrders))
      && Field(v, "monthlyRevenue") == Some(Num(r.value.monthlyRevenue))
      && Field(v, "activeCustomers") == Some(Num(r.value.activeCustomers))
      && Field(v, "pendingIssues") == Some(Num(r.value.pendingIssues))
  {
    match (Field(v, "dailyOrders"), Field(v, "monthlyRevenue"), Field(v, "activeCustomers"), Field(v, "pendingIssues"))
    case (Some(Num(d)), Some(Num(m)), Some(Num(a)), Some(Num(p))) => Some(Reports(d, m, a, p))
    case _ => None
  }

  /** Looking a key up in fields extended by one more field. */
  lemma LastFieldSnoc(fields: seq<(string, Value)>, k: string, v: Value, key: string)
    ensures LastField(fields + [(k, v)], key) == if k == key then Some(v) else LastField(fields, key)
  {
    assert (fields + [(k, v)])[..|fields|] == fields;
  }

  /** Each key of the reports JSON reads back as the matching field. */
  lemma ReportsFields(r: Reports)
    ensures Field(ReportsJson(r), "dailyOrders") == Some(Num(r.dailyOrders))
    ensures Field(ReportsJson(r), "monthlyRevenue") == Some(Num(r.monthlyRevenue))
    ensures Field(ReportsJson(r), "activeCustomers") == Some(Num(r.activeCustomers))
    ensures Field(ReportsJson(r), "pendingIssues") == Some(Num(r.pendingIssues))
  {
    var f1 := [("dailyOrders", Num(r.dailyOrders))];
    var f2 := f1 + [("monthlyRevenue", Num(r.monthlyRevenue))];
    var f3 := f2 + [("activeCustomers", Num(r.activeCustomers))];
    var f4 := f3 + [("pendingIssues", Num(r.pendingIssues))];
    assert ReportsJson(r).fields == f4;
    forall key | key in ReportKeys
      ensures LastField(f4, key) == LastField(f3, key) || key == "pendingIssues"
    {
      LastFieldSnoc(f3, "pendingIssues", Num(r.pendingIssues), key);
    }
    LastFieldSnoc(f3, "pendingIssues", Num(r.pendingIssues), "pendingIssues");
    LastFieldSnoc(f2, "activeCustomers", Num(r.activeCustomers), "activeCustomers");
    LastFieldSnoc(f2, "activeCustomers", Num(r.activeCustomers), "monthlyRevenue");
    LastFieldSnoc(f2, "activeCustomers", Num(r.activeCustomers), "dailyOrders");
    LastFieldSnoc(f1, "monthlyRevenue", Num(r.monthlyRevenue), "monthlyRevenue");
    LastFieldSnoc(f1, "monthlyRevenue", Num(r.monthlyRevenue), "dailyOrders");
  }

  /** Every report field survives the trip through JSON and back. */
  lemma ReportsRoundTrip(r: Reports)
    ensures ReportsFromJson(ReportsJson(r)) == Some(r)
  {
    ReportsFields(r);
  }

  /** The value `/api/reports` sends is exactly
      `{dailyOrders: 45, monthlyRevenue: 12500, activeCustomers: 234, pendingIssues: 3}`,
      and each of its four keys reads back as that number. */
  lemma ReportsPayload()
    ensures ReportsJson(TheReports) ==
      Obj([("dailyOrders", Num(45)), ("monthlyRevenue", Num(12500)),
           ("activeCustomers", Num(234)), ("pendingIssues", Num(3))])
    ensures Field(ReportsJson(TheReports), "dailyOrders") == Some(Num(45))
    ensures Field(ReportsJson(TheReports), "monthlyRevenue") == Some(Num(12500))
    ensures Field(ReportsJson(TheReports), "activeCustomers") == Some(Num(234))
    ensures Field(ReportsJson(TheReports), "pendingIssues") == Some(Num(3))
  {
    ReportsFields(TheReports);
  }

  /** The orders shown on `/orders` name the three services once each, with the
      customer each belongs to. */
  lemma OrdersServices()
    ensures |Orders| == 3
    ensures forall i, j :: 0 <= i < j < |Orders| ==> Orders[i].service != Orders[j].service
    ensures Orders[0].service == "Dry Cleaning" && Orders[0].customer == "John Doe"
    ensures Orders[1].service == "Laundry" && Orders[1].customer == "Jane Smith"
    ensures Orders[2].service == "Alterations" && Orders[2].customer == "Bob Johnson"
  {
  }
}
