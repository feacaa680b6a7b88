/**
 * `page_content_split_http_trigger`: validate the decoded request body, run
 * `process_record` over its `values` in order, and wrap the results in the
 * response envelope, or answer with a request-level error.
 */
module Handler {
  import opened Wrappers
  import opened Json
  import opened Records

  /** What `req.get_json()` gives: the decoded body, or a ValueError because
      the body is not JSON. */
  datatype Body = Decoded(json: Value) | NotJson

  datatype Response =
    | Ok(values: seq<OutputRecord>)   // 200 with {"values": [...]}
    | BadRequest(error: string)       // 400 with {"error": ...}
    | ServerError(cause: Fault)       // 500 with {"error": "Internal server error: " + str(cause)}
  {
    function StatusCode(): int {
      match this
      case Ok(_) => 200
      case BadRequest(_) => 400
      case ServerError(_) => 500
    }
  }

  const BodyRequired := "Request body is required"
  const InvalidFormat := "Invalid request format. Expected \"values\" array in request body."
  const InvalidJson := "Invalid JSON in request body"

  /** The `values` member of a body that passes the checks of lines 137-156:
      a non-empty object whose `values` is a non-empty list. */
  function Batch(body: Body): Option<seq<Value>> {
    if body.Decoded? && body.json.Object? && body.json.fields != map[] then
      var values := Get(body.json.fields, "values", Null);
      if values.Array? && values.items != [] then Some(values.items) else None
    else None
  }

  /** `i` is the first position of a record that is not an object. */
  predicate FirstNonObject(values: seq<Value>, i: int) {
    0 <= i < |values| && !values[i].Object? && forall j :: 0 <= j < i ==> values[j].Object?
  }

  /** The request handler. Request-level checks come first, in the order of
      the source; then every record is processed with its own position, and
      the first record that is not an object turns the request into a 500. */
  method HandleRequest(body: Body) returns (response: Response)
    ensures body.NotJson? ==> response == BadRequest(InvalidJson)
    ensures body.Decoded? && !Truthy(body.json) ==> response == BadRequest(BodyRequired)
    ensures body.Decoded? && Truthy(body.json) && !body.json.Object? ==>
      response == ServerError(NoGetAttribute(body.json))
    ensures body.Decoded? && Truthy(body.json) && body.json.Object? && Batch(body).None? ==>
      response == BadRequest(InvalidFormat)
    ensures response.Ok? ==> Batch(body).Some? && |response.values| == |Batch(body).value|
    ensures response.Ok? ==> forall i :: 0 <= i < |response.values| ==>
      ProcessRecord(Batch(body).value[i], i) == Processed(response.values[i])
    ensures Batch(body).Some? ==>
      (response.Ok? <==> forall i :: 0 <= i < |Batch(body).value| ==> Batch(body).value[i].Object?)
    ensures Batch(body).Some? && !response.Ok? ==> exists i ::
      FirstNonObject(Batch(body).value, i) && response == ServerError(NoGetAttribute(Batch(body).value[i]))
    ensures response.Ok? ==> forall i :: 0 <= i < |response.values| ==>
      && WellFormed(response.values[i])
      && Batch(body).value[i].Object?
      && response.values[i].recordId == RecordIdOf(Batch(body).value[i].fields, i)
  {
    if body.NotJson? {
      return BadRequest(InvalidJson);
    }
    var request := body.json;
    if !Truthy(request) {
      return BadRequest(BodyRequired);
    }
    if !request.Object? {
      return ServerError(NoGetAttribute(request));
    }
    var values := Get(request.fields, "values", Null);
    if !Truthy(values) || !values.Array? {
      return BadRequest(InvalidFormat);
    }
    var records := values.items;
    var results: seq<OutputRecord> := [];
    var index := 0;
    while index < |records|
      invariant 0 <= index <= |records|
      invariant |results| == index
      invariant forall k :: 0 <= k < index ==> ProcessRecord(records[k], k) == Processed(results[k])
    {
      var outcome := ProcessRecord(records[index], index);
      if outcome.Raised? {
        assert FirstNonObject(records, index);
        return ServerError(outcome.fault);
      }
      results := results + [outcome.record];
      index := index + 1;
    }
    return Ok(results);
  }
}

/** Worked requests, from the body to the response. */
module HandlerExamples {
  import opened Wrappers
  import opened Json
  import opened ExtractExamples
  import opened Records
  import opened RecordExamples
  import opened Handler

  /** A batch of one record that is processed answers with that record's output. */
  method SingleRecordRequest(record: Value, output: OutputRecord) returns (response: Response)
    requires ProcessRecord(record, 0) == Processed(output)
    ensures response == Ok([output]) && response.StatusCode() == 200
  {
    var body := Decoded(Object(map["values" := Array([record])]));
    assert "values" in body.json.fields && body.json.fields["values"] == Array([record]);
    assert Batch(body) == Some([record]);
    response := HandleRequest(body);
    assert response.Ok? && |response.values| == 1;
    assert response.values == [output];
  }

  /** A request with one record holding the three-field page. */
  method FullRequest(page: string) returns (response: Response)
    requires page == ScenarioPage
    ensures response == Ok([OutputRecord(Str("r1"), map["id" := "1", "question" := "What is 2+2?", "answer" := "4"], [], [])])
  {
    FullRecord(page);
    response := SingleRecordRequest(
      Object(map["recordId" := Str("r1"), "data" := Object(map["page_content" := Str(page)])]),
      OutputRecord(Str("r1"), map["id" := "1", "question" := "What is 2+2?", "answer" := "4"], [], []));
  }

  /** An empty JSON object is refused as a missing body. */
  method EmptyObjectRequest() returns (response: Response)
    ensures response == BadRequest(BodyRequired) && response.StatusCode() == 400
  {
    response := HandleRequest(Decoded(Object(map[])));
  }

  /** A `values` that is not a list is refused before any record is looked at. */
  method ValuesNotAList() returns (response: Response)
    ensures response == BadRequest(InvalidFormat) && response.StatusCode() == 400
  {
    var body := Decoded(Object(map["values" := Str("not-a-list")]));
    assert "values" in body.json.fields && body.json.fields["values"] == Str("not-a-list");
    assert Truthy(body.json) && Batch(body).None?;
    response := HandleRequest(body);
  }

  /** A record that is not an object fails the whole request, even after a good one. */
  method NonObjectRecord() returns (response: Response)
    ensures response == ServerError(NoGetAttribute(Number(1.0))) && response.StatusCode() == 500
  {
    var values := [Object(map["data" := Object(map[])]), Number(1.0)];
    var body := Decoded(Object(map["values" := Array(values)]));
    assert "values" in body.json.fields && body.json.fields["values"] == Array(values);
    assert Batch(body) == Some(values);
    response := HandleRequest(body);
    assert !response.Ok? by { assert !values[1].Object?; }
    var i :| FirstNonObject(values, i) && response == ServerError(NoGetAttribute(values[i]));
    assert i == 1 by { assert values[0].Object?; }
  }
}
