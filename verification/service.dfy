/**
 * The shipped service (src/data_server.py): one route,
 * `/id_allocation/allocation` → `AllocationController.allocation`, served by
 * dispatch followed by formatting. The lemmas here follow a request through
 * `__do` and `__formatResp` to what the client receives.
 */
module Service {
  import opened Wrappers
  import opened Values
  import opened Text
  import opened Envelope
  import opened Routing
  import opened Dispatch
  import opened Formatting
  import opened Allocation

  const AllocationPath := "/id_allocation/allocation"

  const AllocationController := ControllerClass("AllocationController", {"allocation"})

  /** The `ctrl_info` list handed to the server at start-up. */
  const ShippedRoutes: seq<Route> := [Route(AllocationPath, AllocationController, "allocation")]

  /** Calling a controller method for a request whose body and database are given. */
  function Controllers(body: RequestBody, backend: Backend): Invoker
  {
    (c: ControllerClass, m: string, req: Request) =>
      if c == AllocationController && m == "allocation" then Handle(body, backend)
      else Raised("AttributeError: " + m)
  }

  /** One request from dispatch to the written response; `tpl` is the request's `tpl` argument. */
  function Serve(req: Request, tpl: Option<string>, body: RequestBody, backend: Backend): ResponseAction
  {
    FormatResp(req.path, tpl, Do(SetCtrlInfo(ShippedRoutes), req, Controllers(body, backend)))
  }

  /** Any other path, even one differing only by a trailing `/`, gets status 404 and a non-empty text body. */
  lemma UnknownPathIsNotFound(req: Request, tpl: Option<string>, body: RequestBody, backend: Backend)
    requires req.path != AllocationPath
    ensures var r := Serve(req, tpl, body, backend);
            r.Send? && r.status == 404 && r.body.PlainText? && r.body.text != ""
  {
    ResolveFindsOnlyRegisteredPaths(ShippedRoutes, req.path);
  }

  /** A body that is not a JSON object makes the method raise, which dispatch turns into status 404. */
  lemma MalformedBodyIsNotFound(verb: Verb, tpl: Option<string>, error: string, backend: Backend)
    ensures var r := Serve(Request(verb, AllocationPath), tpl, Malformed(error), backend);
            r == Send(404, map[], PlainText(Traceback(error)))
  {
    var table := SetCtrlInfo(ShippedRoutes);
    var req := Request(verb, AllocationPath);
    assert Resolve(table, AllocationPath) == Some(Target(AllocationController, "allocation"));
    assert Handle(Malformed(error), backend) == Raised(error);
    assert Controllers(Malformed(error), backend)(AllocationController, "allocation", req) == Raised(error);
    assert Do(table, req, Controllers(Malformed(error), backend)) == Failed(error);
  }

  /** The envelope written for a request to the allocation route without `tpl`. */
  function WrittenEnvelope(verb: Verb, body: RequestBody, backend: Backend): Option<Fields>
  {
    var r := Serve(Request(verb, AllocationPath), None, body, backend);
    if r.Send? && r.status == 200 && r.headers == ContentHeaders(JsonContentType) && r.body.JsonDoc? then
      DecodeEnvelope(r.body.doc)
    else
      None
  }

  /**
   * With a well-formed body, GET or POST, the client gets status 200 with the
   * JSON headers, and the envelope is the invalid-input one, the database error,
   * the no-allocation one, or the first row with code 0.
   */
  lemma AllocationRouteAnswers(verb: Verb, fields: AllocationFields, backend: Backend)
    ensures var w := WrittenEnvelope(verb, JsonObject(fields), backend);
            && w.Some?
            && (!ValidInput(fields) ==> w.value == Fields(EmptyDict, -1, InvalidInputMsg))
            && (ValidInput(fields) ==>
                  var q := AllocationQuery(fields.vids.value, fields.graphId.value, fields.updatedNanosecond.value);
                  match backend(q)
                  case QueryFailed(e) => w.value == Fields(EmptyDict, -1, e)
                  case Rows(columns, rows) =>
                    if |rows| == 0 then w.value == Fields(EmptyDict, -1, NoAllocationMsg)
                    else w.value == Fields(Dict(DictFactory(columns, rows[0])), 0, ""))
  {
    var body := JsonObject(fields);
    var req := Request(verb, AllocationPath);
    var table := SetCtrlInfo(ShippedRoutes);
    assert Resolve(table, AllocationPath) == Some(Target(AllocationController, "allocation"));
    var h := Handle(body, backend);
    assert Do(table, req, Controllers(body, backend)) == Dispatched(200, "", h.response);
  }

  lemma ExampleArrayLiteral()
    ensures ArrayLiteral(["v1", "v2"]) == "ARRAY['v1','v2']"
  {
    var q := Quoted(["v1", "v2"]);
    assert q[0] == "'v1'" && q[1] == "'v2'";
    assert Join(",", q) == "'v1'" + "," + "'v2'";
  }

  lemma ExampleDecimal()
    ensures IntToDecimal(1000) == "1000"
  {
    assert DigitChar(0) == '0' && DigitChar(1) == '1';
    assert NatToDecimal(1) == "1";
    assert NatToDecimal(10) == NatToDecimal(1) + "0";
    assert NatToDecimal(100) == NatToDecimal(10) + "0";
    assert NatToDecimal(1000) == NatToDecimal(100) + "0";
  }

  /** The query sent for an example request. */
  lemma ExampleQueryText()
    ensures AllocationQuery(["v1", "v2"], "g1", 1000)
            == "SELECT * FROM process_id_allocation(ARRAY['v1','v2'], 'g1', 1000);"
  {
    ExampleArrayLiteral();
    ExampleDecimal();
    var a := "ARRAY['v1','v2']";
    var n := "1000";
    assert AllocationQuery(["v1", "v2"], "g1", 1000)
           == "SELECT * FROM process_id_allocation(" + a + ", '" + "g1" + "', " + n + ");";
  }

  const ExampleFields := AllocationFields(Some("g1"), Some(1000), Some(["v1", "v2"]))
  const ExampleQuery := "SELECT * FROM process_id_allocation(ARRAY['v1','v2'], 'g1', 1000);"
  const ExampleColumns := ["return_graph_id", "return_updated_nanosecond"]

  /** A database that answers the example query with the given rows and fails on any other text. */
  function ExampleBackend(rows: seq<seq<Value>>): Backend
  {
    (q: string) => if q == ExampleQuery then Rows(ExampleColumns, rows) else QueryFailed("Exception('unexpected query')")
  }

  lemma ExampleRowDict()
    ensures DictFactory(ExampleColumns, [Str("g1"), Int(1000)])
            == map["return_graph_id" := Str("g1"), "return_updated_nanosecond" := Int(1000)]
  {
    var row := [Str("g1"), Int(1000)];
    DictFactoryMapsColumns(ExampleColumns, row);
    var d := DictFactory(ExampleColumns, row);
    assert d.Keys == {"return_graph_id", "return_updated_nanosecond"};
  }

  /** The example request against a database returning one row: code 0 and that row as data. */
  lemma ExampleAllocationSucceeds(verb: Verb)
    ensures WrittenEnvelope(verb, JsonObject(ExampleFields), ExampleBackend([[Str("g1"), Int(1000)]]))
            == Some(Fields(Dict(map["return_graph_id" := Str("g1"), "return_updated_nanosecond" := Int(1000)]), 0, ""))
  {
    var row := [Str("g1"), Int(1000)];
    var backend := ExampleBackend([row]);
    ExampleQueryText();
    assert ValidInput(ExampleFields);
    assert AllocationQuery(["v1", "v2"], "g1", 1000) == ExampleQuery;
    assert backend(ExampleQuery) == Rows(ExampleColumns, [row]);
    AllocationRouteAnswers(verb, ExampleFields, backend);
    ExampleRowDict();
  }

  /** The example request against a database returning no rows: code -1, `allocation ID=null`. */
  lemma ExampleAllocationFindsNothing(verb: Verb)
    ensures WrittenEnvelope(verb, JsonObject(ExampleFields), ExampleBackend([]))
            == Some(Fields(EmptyDict, -1, NoAllocationMsg))
  {
    ExampleQueryText();
    AllocationRouteAnswers(verb, ExampleFields, ExampleBackend([]));
  }
}
