/**
 * `AllocationController.allocation` and `dict_factory`
 * (src/controller/allocation_controller.py): validate the request body, build
 * the SQL text for the database-side allocation procedure by plain string
 * concatenation, and map what the database returns to a `Resp` envelope.
 *
 * The database is a parameter (`Backend`): given the query text it yields the
 * column names and rows, or the `repr` of the exception raised while
 * connecting, executing or fetching (its type name followed by its arguments in
 * parentheses, as in `OperationalError('could not connect')`).
 */
module Allocation {
  import opened Wrappers
  import opened Values
  import opened Text
  import opened Envelope
  import opened Dispatch
  import Assoc

  /** The three documented fields of the JSON body; a field may be absent. */
  datatype AllocationFields = AllocationFields(
    graphId: Option<string>,
    updatedNanosecond: Option<int>,
    vids: Option<seq<string>>)

  /**
   * The body after decoding: an object with those fields, or the text of the
   * exception raised before validation, either because the body is not JSON or
   * because it is JSON but not an object (`[]`, `null`, `5`), whose lack of a
   * `get` method raises. Neither exception is caught by the handler.
   */
  datatype RequestBody = JsonObject(fields: AllocationFields) | Malformed(error: string)

  /** Column names and rows, or the `repr` text of the exception the database access raised. */
  datatype QueryOutcome = Rows(columns: seq<string>, rows: seq<seq<Value>>) | QueryFailed(exceptionRepr: string)

  type Backend = string -> QueryOutcome

  const InvalidInputMsg := "Invalid input body"
  const NoAllocationMsg := "allocation ID=null"

  /** `dict_factory(cursor, row)`: column names zipped with the row's values. */
  function DictFactory(columns: seq<string>, row: seq<Value>): map<string, Value>
  {
    Assoc.FromPairs(Assoc.Zip(columns, row))
  }

  /** With distinct column names and a full row, each column maps to its own value. */
  lemma DictFactoryMapsColumns(columns: seq<string>, row: seq<Value>)
    requires |row| == |columns|
    requires forall i, j :: 0 <= i < j < |columns| ==> columns[i] != columns[j]
    ensures DictFactory(columns, row).Keys == set c | c in columns
    ensures forall i :: 0 <= i < |columns| ==> DictFactory(columns, row)[columns[i]] == row[i]
  {
    var z := Assoc.Zip(columns, row);
    forall i | 0 <= i < |columns|
      ensures DictFactory(columns, row)[columns[i]] == row[i]
    {
      Assoc.LastOccurrenceWins(z, i);
    }
    assert forall c :: c in DictFactory(columns, row) ==> c in columns by {
      forall c | c in DictFactory(columns, row)
        ensures c in columns
      {
        var i :| 0 <= i < |z| && z[i].0 == c;
        assert columns[i] == c;
      }
    }
  }

  /** Every vid wrapped in single quotes, in input order. */
  function Quoted(vids: seq<string>): (q: seq<string>)
    ensures |q| == |vids|
    ensures forall i :: 0 <= i < |vids| ==> q[i] == "'" + vids[i] + "'"
  {
    seq(|vids|, i requires 0 <= i < |vids| => "'" + vids[i] + "'")
  }

  /** The quoted vids joined by commas inside `ARRAY[` and `]`; nothing is escaped. */
  function ArrayLiteral(vids: seq<string>): string
  {
    "ARRAY[" + Join(",", Quoted(vids)) + "]"
  }

  /** The text sent to the database. */
  function AllocationQuery(vids: seq<string>, graphId: string, updatedNanosecond: int): string
  {
    "SELECT * FROM process_id_allocation(" + ArrayLiteral(vids) + ", '" + graphId + "', "
      + IntToDecimal(updatedNanosecond) + ");"
  }

  /** The input checks of lines 49-55, with the `data.get` defaults applied. */
  predicate ValidInput(f: AllocationFields)
  {
    f.graphId.GetOr("") != "" && f.updatedNanosecond.GetOr(0) != 0 && |f.vids.GetOr([])| != 0
  }

  /** The `try` block: what the backend's outcome becomes. */
  function Envelop(outcome: QueryOutcome): Response
  {
    match outcome
    case QueryFailed(e) => Resp(data := EmptyDict, code := -1, msg := e)
    case Rows(columns, rows) =>
      if |rows| == 0 then Resp(data := EmptyDict, code := -1, msg := NoAllocationMsg)
      else Resp(data := Dict(DictFactory(columns, rows[0])), code := 0, msg := "")
  }

  /**
   * `allocation()`: an unparsable body raises; a body failing the checks gets the
   * invalid-input envelope; otherwise the query built from the fields is run once
   * and its outcome becomes the envelope, the method returning normally even when
   * the database fails.
   */
  function Handle(body: RequestBody, backend: Backend): (r: HandlerResult)
    ensures body.Malformed? <==> r.Raised?
    ensures body.Malformed? ==> r.error == body.error
    ensures r.Returned? ==> r.response.Json? && DecodeEnvelope(r.response.resp).Some?
    ensures body.JsonObject? && !ValidInput(body.fields) ==>
              r == Returned(Resp(data := EmptyDict, code := -1, msg := InvalidInputMsg))
    ensures body.JsonObject? && ValidInput(body.fields) ==>
              var f := body.fields;
              r == Returned(Envelop(backend(AllocationQuery(f.vids.value, f.graphId.value, f.updatedNanosecond.value))))
  {
    match body
    case Malformed(e) => Raised(e)
    case JsonObject(f) =>
      var graphId := f.graphId.GetOr("");
      var updatedNanosecond := f.updatedNanosecond.GetOr(0);
      var vids := f.vids.GetOr([]);
      if graphId == "" || updatedNanosecond == 0 then
        Returned(Resp(data := EmptyDict, code := -1, msg := InvalidInputMsg))
      else if |vids| == 0 then
        Returned(Resp(data := EmptyDict, code := -1, msg := InvalidInputMsg))
      else
        Returned(Envelop(backend(AllocationQuery(vids, graphId, updatedNanosecond))))
  }

  /**
   * The envelope's code is 0 exactly when the input was valid and the database
   * returned at least one row; its data is then the first row as a dict.
   */
  lemma EnvelopeCodeMeansSuccess(body: RequestBody, backend: Backend)
    requires body.JsonObject?
    ensures var f := DecodeEnvelope(Handle(body, backend).response.resp).value;
            && (f.code == 0 || f.code == -1)
            && (f.code == 0 <==>
                 && ValidInput(body.fields)
                 && var q := AllocationQuery(body.fields.vids.value, body.fields.graphId.value,
                                             body.fields.updatedNanosecond.value);
                 && backend(q).Rows? && |backend(q).rows| > 0)
            && (f.code == 0 ==> f.msg == "" && f.data.Dict?)
            && (f.code != 0 ==> f.data == EmptyDict)
  {
  }

  /** Input that fails the checks never reaches the database: any two backends give the same result. */
  lemma InvalidInputSkipsBackend(fields: AllocationFields, backend1: Backend, backend2: Backend)
    requires !ValidInput(fields)
    ensures Handle(JsonObject(fields), backend1) == Handle(JsonObject(fields), backend2)
  {
  }

  /** Between its brackets, the array literal splits on `,` into the quoted vids, as long as no vid holds a `,`. */
  lemma ArrayLiteralListsVids(vids: seq<string>)
    requires |vids| > 0
    requires forall i :: 0 <= i < |vids| ==> ',' !in vids[i]
    ensures var a := ArrayLiteral(vids);
            a[..6] == "ARRAY[" && a[|a| - 1] == ']' && Split(a[6..|a| - 1], ',') == Quoted(vids)
  {
    var q := Quoted(vids);
    forall i | 0 <= i < |q|
      ensures ',' !in q[i]
    {
      assert q[i] == "'" + vids[i] + "'";
    }
    var a := ArrayLiteral(vids);
    assert a[6..|a| - 1] == Join(",", q);
    SplitJoin(q, ',');
  }

  /** Nothing is escaped: a vid holding `','` gives the same query text as two separate vids. */
  lemma ArrayLiteralIsNotEscaped()
    ensures ArrayLiteral(["a','b"]) == ArrayLiteral(["a", "b"])
  {
    var two := Quoted(["a", "b"]);
    assert two[0] == "'a'" && two[1] == "'b'";
    var one := Quoted(["a','b"]);
    assert one[0] == "'a','b'";
    assert Join(",", two) == "'a'" + "," + "'b'";
  }
}
