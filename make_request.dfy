/**
  `makeRequest` (src/lib/makeRequest.ts): build the URL with its query
  string, send the request through `fetch`, classify the answer and, when a
  schema is given, validate it. `fetch` is an oracle from the call it is
  given to a response; a zod schema is an oracle from data to a parsed value
  or a mismatch.
 */
module Http {
  import opened Wrappers
  import opened Js
  import opened Json
  import opened StorageTypes

  datatype Method = GET | POST | PUT | DELETE | PATCH | HEAD | OPTIONS

  /** A primitive query value. */
  datatype Primitive = PString(s: string) | PNumber(n: Num) | PBool(b: bool) | PNull | PUndefined

  /** One query value: a primitive, or an array of them. */
  datatype QueryValue = Single(value: Primitive) | Many(values: seq<Primitive>)

  /** A query object, as `Object.entries` lists it. */
  type Query = seq<(string, QueryValue)>

  type Headers = seq<(string, string)>

  /** The `MakeRequest` parameters (the abort signal is not modelled). */
  datatype Request = Request(
    httpMethod: Method,
    headers: Option<Headers>,
    body: Option<Json>,
    query: Option<Query>,
    address: string)

  datatype FetchBody = TextBody(text: string) | BinaryBody(bytes: seq<bv8>)

  /** What `fetch` is called with: the method, the URL (address plus search
      parameters), the headers and the body. */
  datatype FetchCall = FetchCall(
    httpMethod: Method,
    address: string,
    search: seq<(string, string)>,
    headers: Option<Headers>,
    body: Option<FetchBody>)

  /** A response as the code reads it: status, status text, the content-type
      header, the raw body, and what `text()` and `json()` make of it (`json`
      is None when the body is not valid JSON). */
  datatype Response = Response(
    status: int,
    statusText: string,
    contentType: Option<string>,
    body: seq<bv8>,
    text: string,
    json: Option<Json>)

  /** The data `getData` resolves with. */
  datatype Data = JsonData(json: Json) | TextData(text: string)

  type Fetch = FetchCall -> Result<Response, Failure>

  /** `String(value)`. */
  function StringOf(p: Primitive): (s: string)
    ensures p.PNull? ==> s == "null"
    ensures p.PUndefined? ==> s == "undefined"
    ensures p.PString? ==> s == p.s
  {
    match p
    case PString(s) => s
    case PNumber(n) => NumToString(n)
    case PBool(b) => if b then "true" else "false"
    case PNull => "null"
    case PUndefined => "undefined"
  }

  /** The search parameters one query entry appends. */
  function EntryParams(key: string, value: QueryValue): seq<(string, string)> {
    match value
    case Single(p) => [(key, StringOf(p))]
    case Many(values) => seq(|values|, i requires 0 <= i < |values| => (key, StringOf(values[i])))
  }

  /** All search parameters of a query, entry after entry. */
  function ExpandQuery(query: Query): seq<(string, string)> {
    if query == [] then []
    else ExpandQuery(query[..|query| - 1]) + EntryParams(query[|query| - 1].0, query[|query| - 1].1)
  }

  /** `body ? JSON.stringify(body) : undefined`. */
  function SentBody(body: Option<Json>): (r: Option<FetchBody>)
    ensures r.Some? <==> body.Some? && Truthy(body.value)
    ensures r.Some? ==> r.value == TextBody(Stringify(body.value))
  {
    if body.Some? && Truthy(body.value) then Some(TextBody(Stringify(body.value))) else None
  }

  /** The call `performFetch` makes. */
  function FetchCallFor(req: Request): (call: FetchCall)
    ensures call.httpMethod == req.httpMethod && call.address == req.address && call.headers == req.headers
    ensures req.query.None? ==> call.search == []
    ensures req.query.Some? ==> call.search == ExpandQuery(req.query.value)
    ensures call.body.Some? <==> req.body.Some? && Truthy(req.body.value)
  {
    FetchCall(
      req.httpMethod,
      req.address,
      if req.query.Some? then ExpandQuery(req.query.value) else [],
      req.headers,
      SentBody(req.body))
  }

  /** `performFetch`: append every query entry to the URL's search parameters,
      one pair per array element, then describe the call to `fetch`. */
  method PerformFetch(req: Request) returns (call: FetchCall)
    ensures call == FetchCallFor(req)
  {
    var search: seq<(string, string)> := [];
    if req.query.Some? {
      var entries := req.query.value;
      var i := 0;
      while i < |entries|
        invariant 0 <= i <= |entries|
        invariant search == ExpandQuery(entries[..i])
      {
        var key := entries[i].0;
        match entries[i].1 {
          case Many(values) =>
            search := AppendEach(search, key, values);
          case Single(p) =>
            search := search + [(key, StringOf(p))];
        }
        assert entries[..i + 1][..i] == entries[..i];
        i := i + 1;
      }
      assert entries[..i] == entries;
    }
    call := FetchCall(req.httpMethod, req.address, search, req.headers, SentBody(req.body));
  }

  /** `value.forEach((value) => url.searchParams.append(key, String(value)))`. */
  method AppendEach(search: seq<(string, string)>, key: string, values: seq<Primitive>)
    returns (extended: seq<(string, string)>)
    ensures extended == search + EntryParams(key, Many(values))
  {
    extended := search;
    var j := 0;
    while j < |values|
      invariant 0 <= j <= |values|
      invariant extended == search + EntryParams(key, Many(values[..j]))
    {
      assert EntryParams(key, Many(values[..j + 1]))
          == EntryParams(key, Many(values[..j])) + [(key, StringOf(values[j]))];
      extended := extended + [(key, StringOf(values[j]))];
      j := j + 1;
    }
    assert values[..j] == values;
  }

  /** `response.ok`. */
  predicate IsOk(response: Response) {
    200 <= response.status <= 299
  }

  /** `response.headers.get('content-type')?.includes('application/json') ?? false`. */
  predicate IsJson(response: Response) {
    response.contentType.Some? && IncludesFrom(response.contentType.value, "application/json", 0)
  }

  /** How `getData` settles for a response. */
  function Classify(response: Response): (r: Result<Data, Failure>)
    ensures !IsOk(response) ==> r == Err(HttpStatus(response.status, response.statusText))
    ensures IsOk(response) && IsJson(response) ==>
      r == if response.json.Some? then Ok(JsonData(response.json.value)) else Err(InvalidJson)
    ensures IsOk(response) && !IsJson(response) ==> r == Ok(TextData(response.text))
  {
    if !IsOk(response) then Err(HttpStatus(response.status, response.statusText))
    else if IsJson(response) then
      (if response.json.Some? then Ok(JsonData(response.json.value)) else Err(InvalidJson))
    else Ok(TextData(response.text))
  }

  /** `getData(params)`: one fetch, then the classification of its response. */
  function GetData(req: Request, fetch: Fetch): (r: Result<Data, Failure>)
    ensures var answer := fetch(FetchCallFor(req));
      && (answer.Err? ==> r == Err(answer.error))
      && (r.Ok? ==> answer.Ok? && IsOk(answer.value))
      && (answer.Ok? && !IsOk(answer.value) ==> r == Err(HttpStatus(answer.value.status, answer.value.statusText)))
      && (answer.Ok? && IsOk(answer.value) && !IsJson(answer.value) ==> r == Ok(TextData(answer.value.text)))
      && (answer.Ok? && IsOk(answer.value) && IsJson(answer.value) ==>
            r == if answer.value.json.Some? then Ok(JsonData(answer.value.json.value)) else Err(InvalidJson))
  {
    match fetch(FetchCallFor(req))
    case Err(e) => Err(e)
    case Ok(response) => Classify(response)
  }

  /** `makeRequest(params, schema)` with a schema: the schema's parse of the data. */
  function MakeRequest<T>(req: Request, fetch: Fetch, schema: Data -> Result<T, Failure>): (r: Result<T, Failure>)
    ensures GetData(req, fetch).Err? ==> r == Err(GetData(req, fetch).error)
    ensures GetData(req, fetch).Ok? ==> r == schema(GetData(req, fetch).value)
  {
    match GetData(req, fetch)
    case Err(e) => Err(e)
    case Ok(data) => schema(data)
  }

  /** `makeRequest(params)` without a schema: the data, unchanged. */
  function MakeRequestUnchecked(req: Request, fetch: Fetch): (r: Result<Data, Failure>)
    ensures r == GetData(req, fetch)
  {
    GetData(req, fetch)
  }

  // ---------------------------------------------------------------------
  // Properties
  // ---------------------------------------------------------------------

  /** A query of single values sends one parameter per entry, in entry order:
      the key with `String(value)`. */
  lemma {:induction false} ExpandScalarQuery(query: Query)
    requires forall i :: 0 <= i < |query| ==> query[i].1.Single?
    ensures |ExpandQuery(query)| == |query|
    ensures forall i :: 0 <= i < |query| ==> ExpandQuery(query)[i] == (query[i].0, StringOf(query[i].1.value))
    decreases |query|
  {
    if query != [] {
      var init := query[..|query| - 1];
      ExpandScalarQuery(init);
      assert forall i :: 0 <= i < |init| ==> init[i] == query[i];
    }
  }

  lemma {:induction false} ExpandQueryAppend(a: Query, b: Query)
    ensures ExpandQuery(a + b) == ExpandQuery(a) + ExpandQuery(b)
    decreases |b|
  {
    if b == [] {
      assert a + b == a;
    } else {
      var b' := b[..|b| - 1];
      var last := b[|b| - 1];
      var tail := EntryParams(last.0, last.1);
      assert ExpandQuery(a + b) == ExpandQuery(a + b') + tail by {
        var ab := a + b;
        assert ab[..|ab| - 1] == a + b';
        assert ab[|ab| - 1] == last;
      }
      assert ExpandQuery(b) == ExpandQuery(b') + tail;
      ExpandQueryAppend(a, b');
      assert ExpandQuery(a) + ExpandQuery(b') + tail == ExpandQuery(a) + (ExpandQuery(b') + tail);
    }
  }

  /** Entries are appended in entry order: the parameters of a query are those of
      its first entry followed by those of the rest. */
  lemma ExpandQueryCons(key: string, value: QueryValue, rest: Query)
    ensures ExpandQuery([(key, value)] + rest) == EntryParams(key, value) + ExpandQuery(rest)
  {
    ExpandQueryAppend([(key, value)], rest);
    assert [(key, value)][..0] == [];
  }

  /** An array value appends one `key=String(element)` per element, in order
      (none for an empty array); any other value appends exactly one pair. */
  lemma EntryParamsShape(key: string, value: QueryValue)
    ensures value.Single? ==> EntryParams(key, value) == [(key, StringOf(value.value))]
    ensures value.Many? ==> |EntryParams(key, value)| == |value.values|
    ensures value.Many? ==> forall i :: 0 <= i < |value.values| ==>
      EntryParams(key, value)[i] == (key, StringOf(value.values[i]))
  {
  }

  /** Every parameter sent carries a key of the query, and only entries with
      array values can contribute more than one. */
  lemma {:induction false} ExpandedKeysComeFromQuery(query: Query, k: nat)
    requires k < |ExpandQuery(query)|
    ensures exists j :: 0 <= j < |query| && ExpandQuery(query)[k].0 == query[j].0
    decreases |query|
  {
    var init := query[..|query| - 1];
    var last := query[|query| - 1];
    if k < |ExpandQuery(init)| {
      ExpandedKeysComeFromQuery(init, k);
      var j :| 0 <= j < |init| && ExpandQuery(init)[k].0 == init[j].0;
      assert query[j] == init[j];
    } else {
      assert ExpandQuery(query)[k] == EntryParams(last.0, last.1)[k - |ExpandQuery(init)|];
      assert ExpandQuery(query)[k].0 == query[|query| - 1].0;
    }
  }

  /** A string body is sent JSON-quoted; an empty string or null sends nothing. */
  lemma StringBodyIsQuoted(s: string)
    ensures SentBody(Some(JString(s))) == if s == "" then None else Some(TextBody(Quote(s)))
    ensures SentBody(Some(JNull)) == None && SentBody(None) == None
  {
  }

  /** The answer is text or JSON according to the content type, and any
      non-2xx status is a failure carrying that status. */
  lemma ClassifyOutcomes(response: Response)
    ensures Classify(response).Ok? <==> IsOk(response) && (IsJson(response) ==> response.json.Some?)
    ensures Classify(response).Ok? ==> (Classify(response).value.JsonData? <==> IsJson(response))
  {
  }

  lemma ContentTypeExamples(r: Response)
    requires IsOk(r) && r.json.Some?
    ensures Classify(r.(contentType := Some("application/json; charset=utf-8"))).Ok?
    ensures Classify(r.(contentType := Some("application/json; charset=utf-8"))).value.JsonData?
    ensures Classify(r.(contentType := Some("text/plain"))) == Ok(TextData(r.text))
    ensures Classify(r.(contentType := None)) == Ok(TextData(r.text))
  {
    assert OccursAt("application/json; charset=utf-8", "application/json", 0) by {
      assert "application/json; charset=utf-8"[0..16] == "application/json";
    }
    assert !IncludesFrom("text/plain", "application/json", 0);
  }
}
