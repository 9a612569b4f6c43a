/** `RequestBuilder`: a base URL and a parameter map, and the nine request
    shapes built from them.

    Java's builder is mutable and returns itself for chaining; here every
    operation returns the next builder value, and building a request takes
    the builder as an argument and gives back only the request, so a builder
    is reusable by construction. */
module RequestBuilder {
  import opened Wrappers
  import opened Json

  // ---------------------------------------------------------------------------
  // Builder state
  // ---------------------------------------------------------------------------

  /** The builder's state: the base URL and the accumulated parameters. */
  datatype Builder = Builder(baseUrl: string, params: map<string, Json>)

  /** `new RequestBuilder(baseUrl)`. */
  function NewBuilder(baseUrl: string): (b: Builder)
    ensures b.baseUrl == baseUrl && |b.params| == 0
  {
    Builder(baseUrl, map[])
  }

  /** `addParameter(key, value)`: `key` now maps to `value`; every other key
      keeps its value, and the base URL is untouched. */
  function AddParameter(b: Builder, key: string, value: Json): (r: Builder)
    ensures r.baseUrl == b.baseUrl
    ensures r.params.Keys == b.params.Keys + {key}
    ensures r.params[key] == value
    ensures forall k :: k in b.params && k != key ==> r.params[k] == b.params[k]
  {
    b.(params := b.params[key := value])
  }

  /** `addParameters(parameters)`, Java's `putAll`: a right-biased merge. */
  function AddParameters(b: Builder, parameters: map<string, Json>): (r: Builder)
    ensures r.baseUrl == b.baseUrl
    ensures r.params.Keys == b.params.Keys + parameters.Keys
    ensures forall k :: k in parameters ==> r.params[k] == parameters[k]
    ensures forall k :: k in b.params && k !in parameters ==> r.params[k] == b.params[k]
  {
    b.(params := b.params + parameters)
  }

  /** `clearParameters`: no parameters left; the base URL is untouched. */
  function ClearParameters(b: Builder): (r: Builder)
    ensures r.baseUrl == b.baseUrl
    ensures forall k :: k !in r.params
  {
    b.(params := map[])
  }

  /** `getParameters`: a copy of the current parameters. */
  function GetParameters(b: Builder): map<string, Json> {
    b.params
  }

  /** `setBaseUrl`: a new base URL; the parameters are untouched. */
  function SetBaseUrl(b: Builder, baseUrl: string): (r: Builder)
    ensures r.baseUrl == baseUrl && r.params == b.params
  {
    b.(baseUrl := baseUrl)
  }

  /** `getBaseUrl`. */
  function GetBaseUrl(b: Builder): string {
    b.baseUrl
  }

  /** Last write wins: a second `addParameter` under the same key replaces
      the first, and `getParameters` shows the value written last. */
  lemma AddParameterLastWriteWins(b: Builder, key: string, first: Json, second: Json)
    ensures AddParameter(AddParameter(b, key, first), key, second) == AddParameter(b, key, second)
    ensures GetParameters(AddParameter(AddParameter(b, key, first), key, second))[key] == second
  {
  }

  /** `clearParameters` and `setBaseUrl` touch disjoint parts of the state. */
  lemma ClearAndSetBaseUrlCommute(b: Builder, baseUrl: string)
    ensures ClearParameters(SetBaseUrl(b, baseUrl)) == SetBaseUrl(ClearParameters(b), baseUrl)
    ensures GetBaseUrl(ClearParameters(b)) == GetBaseUrl(b)
    ensures GetParameters(SetBaseUrl(b, baseUrl)) == GetParameters(b)
  {
  }

  /** `addParameter` once per key, in the order `keys` lists them. */
  function AddEach(b: Builder, parameters: map<string, Json>, keys: seq<string>): Builder
    requires forall i :: 0 <= i < |keys| ==> keys[i] in parameters
    decreases |keys|
  {
    if |keys| == 0 then b else AddEach(AddParameter(b, keys[0], parameters[keys[0]]), parameters, keys[1..])
  }

  /** The entries of `parameters` under the keys `keys` lists. */
  function Picked(parameters: map<string, Json>, keys: seq<string>): map<string, Json> {
    map k | k in parameters && k in keys :: parameters[k]
  }

  /** Adding the entries of `parameters` one key at a time, in any order
      that lists each of its keys, gives what `addParameters` gives. */
  lemma AddParametersIsAddEach(b: Builder, parameters: map<string, Json>, keys: seq<string>)
    requires forall i :: 0 <= i < |keys| ==> keys[i] in parameters
    requires forall k :: k in parameters ==> k in keys
    ensures AddEach(b, parameters, keys) == AddParameters(b, parameters)
  {
    AddEachMerges(b, parameters, keys);
    assert Picked(parameters, keys) == parameters;
  }

  lemma {:induction false} AddEachMerges(b: Builder, parameters: map<string, Json>, keys: seq<string>)
    requires forall i :: 0 <= i < |keys| ==> keys[i] in parameters
    ensures AddEach(b, parameters, keys).baseUrl == b.baseUrl
    ensures AddEach(b, parameters, keys).params == b.params + Picked(parameters, keys)
    decreases |keys|
  {
    if |keys| > 0 {
      var k0 := keys[0];
      var next := AddParameter(b, k0, parameters[k0]);
      AddEachMerges(next, parameters, keys[1..]);
      PickedCons(parameters, keys);
      UpdateThenMerge(b.params, Picked(parameters, keys[1..]), k0, parameters[k0]);
    }
  }

  /** Picking along `keys` is picking along its tail, then its head. */
  lemma PickedCons(parameters: map<string, Json>, keys: seq<string>)
    requires |keys| > 0 && keys[0] in parameters
    ensures Picked(parameters, keys) == Picked(parameters, keys[1..])[keys[0] := parameters[keys[0]]]
  {
    assert forall k :: k in keys <==> k == keys[0] || k in keys[1..] by {
      assert keys == [keys[0]] + keys[1..];
    }
  }

  /** Writing `k` before a merge that writes the same value under `k`
      is writing it after. */
  lemma UpdateThenMerge(m: map<string, Json>, q: map<string, Json>, k: string, v: Json)
    requires k in q ==> q[k] == v
    ensures m[k := v] + q == m + q[k := v]
  {
  }

  // ---------------------------------------------------------------------------
  // Built requests
  // ---------------------------------------------------------------------------

  datatype HttpMethod = GET | POST | PUT | PATCH | DELETE

  datatype Header = Header(name: string, value: string)

  /** An HTTP request ready to be sent. Parameters travel either in the query
      string or as form fields; `body` is the JSON document of the
      body-taking variants. */
  datatype BuiltRequest = BuiltRequest(
    verb: HttpMethod,
    url: string,
    headers: seq<Header>,
    query: map<string, Json>,
    fields: map<string, Json>,
    body: Option<Json>)

  const ContentTypeJson: Header := Header("Content-Type", "application/json")

  /** The nine `build*Request` overloads. */
  datatype Call =
    | GetList                          // buildGetRequest()
    | GetById(id: string)              // buildGetRequest(id)
    | PostFields                       // buildPostRequest()
    | PostBody(body: Json)             // buildPostRequest(body)
    | PutFields(id: string)            // buildPutRequest(id)
    | PutBody(id: string, body: Json)  // buildPutRequest(id, body)
    | PatchFields(id: string)          // buildPatchRequest(id)
    | PatchBody(id: string, body: Json)  // buildPatchRequest(id, body)
    | Delete(id: string)               // buildDeleteRequest(id)
  {
    /** The overload takes a resource id. */
    predicate HasId() {
      !(GetList? || PostFields? || PostBody?)
    }

    /** The overload takes a JSON body. */
    predicate HasBody() {
      PostBody? || PutBody? || PatchBody?
    }

    /** The overload sends the parameters as form fields. */
    predicate IsForm() {
      PostFields? || PutFields? || PatchFields?
    }

    /** The HTTP method named by the overload. */
    function Verb(): HttpMethod {
      match this
      case GetList | GetById(_) => GET
      case PostFields | PostBody(_) => POST
      case PutFields(_) | PutBody(_, _) => PUT
      case PatchFields(_) | PatchBody(_, _) => PATCH
      case Delete(_) => DELETE
    }
  }

  /** The request a `build*Request` overload produces from the builder's
      current state. */
  function Build(b: Builder, call: Call): (r: BuiltRequest)
    ensures r.verb == call.Verb()
    ensures r.url == if call.HasId() then b.baseUrl + "/" + call.id else b.baseUrl
    ensures call.HasBody() ==>
      r.headers == [ContentTypeJson] && r.query == b.params && |r.fields| == 0 && r.body == Some(call.body)
    ensures call.IsForm() ==>
      |r.headers| == 0 && r.fields == b.params && |r.query| == 0 && r.body.None?
    ensures !call.HasBody() && !call.IsForm() ==>
      |r.headers| == 0 && r.query == b.params && |r.fields| == 0 && r.body.None?
  {
    match call
    case GetList => BuiltRequest(GET, b.baseUrl, [], b.params, map[], None)
    case GetById(id) => BuiltRequest(GET, b.baseUrl + "/" + id, [], b.params, map[], None)
    case PostFields => BuiltRequest(POST, b.baseUrl, [], map[], b.params, None)
    case PostBody(body) => BuiltRequest(POST, b.baseUrl, [ContentTypeJson], b.params, map[], Some(body))
    case PutFields(id) => BuiltRequest(PUT, b.baseUrl + "/" + id, [], map[], b.params, None)
    case PutBody(id, body) => BuiltRequest(PUT, b.baseUrl + "/" + id, [ContentTypeJson], b.params, map[], Some(body))
    case PatchFields(id) => BuiltRequest(PATCH, b.baseUrl + "/" + id, [], map[], b.params, None)
    case PatchBody(id, body) => BuiltRequest(PATCH, b.baseUrl + "/" + id, [ContentTypeJson], b.params, map[], Some(body))
    case Delete(id) => BuiltRequest(DELETE, b.baseUrl + "/" + id, [], b.params, map[], None)
  }

  /** The request declares a JSON content type. */
  predicate DeclaresJson(r: BuiltRequest) {
    exists i :: 0 <= i < |r.headers| && r.headers[i] == ContentTypeJson
  }

  /** The Content-Type header is present exactly for the body-taking
      overloads, and a body is carried exactly then. */
  lemma JsonHeaderIffBody(b: Builder, call: Call)
    ensures DeclaresJson(Build(b, call)) <==> call.HasBody()
    ensures Build(b, call).body.Some? <==> call.HasBody()
  {
    if call.HasBody() {
      assert Build(b, call).headers[0] == ContentTypeJson;
    }
  }

  /** Every request carries exactly the builder's parameters, in one place
      only: form fields for the form overloads, the query string otherwise. */
  lemma BuildCarriesParameters(b: Builder, call: Call)
    ensures Build(b, call).query + Build(b, call).fields == GetParameters(b)
    ensures Build(b, call).query.Keys !! Build(b, call).fields.Keys
    ensures Build(b, call).fields == (if call.IsForm() then GetParameters(b) else map[])
  {
  }

  /** Builds reflect the state at the moment of the build: a parameter added
      before the build is in the request, under the last value written. */
  lemma BuildSeesAddedParameter(b: Builder, key: string, value: Json, call: Call)
    ensures var r := Build(AddParameter(b, key, value), call);
      (call.IsForm() ==> key in r.fields && r.fields[key] == value) &&
      (!call.IsForm() ==> key in r.query && r.query[key] == value)
  {
  }

  /** For the id-taking overloads, the URL built from one builder determines
      the id: two such calls that target the same URL carry the same id. */
  lemma BuildTargetsDetermineId(b: Builder, c1: Call, c2: Call)
    requires c1.HasId() && c2.HasId()
    requires Build(b, c1).url == Build(b, c2).url
    ensures c1.id == c2.id
  {
    var prefix := b.baseUrl + "/";
    assert Build(b, c1).url == prefix + c1.id;
    assert Build(b, c2).url == prefix + c2.id;
    assert c1.id == (prefix + c1.id)[|prefix|..];
    assert c2.id == (prefix + c2.id)[|prefix|..];
  }

  /** A JSON POST with parameter `a = 1` and body `{"x": 1}` sends `a` in the
      query string and the body as given, with the JSON content type; a form
      POST of `a = 1, b = 2` sends exactly those fields and no content type. */
  lemma PostVariantsExample(baseUrl: string)
    ensures var b := AddParameter(NewBuilder(baseUrl), "a", JNumber(1));
      var r := Build(b, PostBody(JObject(map["x" := JNumber(1)])));
      r.query == map["a" := JNumber(1)] && r.body == Some(JObject(map["x" := JNumber(1)])) && DeclaresJson(r)
    ensures var b := AddParameters(NewBuilder(baseUrl), map["a" := JNumber(1), "b" := JNumber(2)]);
      var r := Build(b, PostFields);
      r.fields == map["a" := JNumber(1), "b" := JNumber(2)] && |r.query| == 0 && !DeclaresJson(r)
  {
    var b := AddParameter(NewBuilder(baseUrl), "a", JNumber(1));
    JsonHeaderIffBody(b, PostBody(JObject(map["x" := JNumber(1)])));
    var b' := AddParameters(NewBuilder(baseUrl), map["a" := JNumber(1), "b" := JNumber(2)]);
    JsonHeaderIffBody(b', PostFields);
  }
}
