/**
 * The router: six per-method dictionaries keyed by a mock's literal path string, where the
 * last write wins, and one list for every other method, where registration appends.
 * `RouteTables` is the value of the router's seven collections; the `Router` class keeps
 * them as mutable fields.
 */
module Routing {
  import opened Http
  import opened Mocks

  /** The seven collections of a router */
  datatype RouteTables = RouteTables(
    getData: map<string, MockData>,
    putData: map<string, MockData>,
    headData: map<string, MockData>,
    postData: map<string, MockData>,
    patchData: map<string, MockData>,
    deleteData: map<string, MockData>,
    otherData: seq<MockData>)
  {
    /** The dictionary that holds mocks of a method other than `OTHER` */
    function Keyed(m: Method): map<string, MockData>
      requires !m.OTHER?
    {
      match m
      case GET => getData
      case PUT => putData
      case HEAD => headData
      case POST => postData
      case PATCH => patchData
      case DELETE => deleteData
    }

    /**
     * What registration keeps true: each dictionary holds, under a key, a mock whose path
     * is that key and whose method is the dictionary's; the list holds only `OTHER` mocks.
     */
    ghost predicate Valid() {
      && KeyedBy(getData, GET)
      && KeyedBy(putData, PUT)
      && KeyedBy(headData, HEAD)
      && KeyedBy(postData, POST)
      && KeyedBy(patchData, PATCH)
      && KeyedBy(deleteData, DELETE)
      && forall i :: 0 <= i < |otherData| ==> otherData[i].verb.OTHER?
    }

    /** `store(_ mock:)`: assign under the mock's path in its method's dictionary, or append */
    function Stored(mock: MockData): (r: RouteTables)
      ensures !mock.verb.OTHER? ==> mock.path in r.Keyed(mock.verb) && r.Keyed(mock.verb)[mock.path] == mock
      ensures mock.verb.OTHER? ==> r.otherData == otherData + [mock]
    {
      match mock.verb
      case GET => this.(getData := getData[mock.path := mock])
      case PUT => this.(putData := putData[mock.path := mock])
      case HEAD => this.(headData := headData[mock.path := mock])
      case POST => this.(postData := postData[mock.path := mock])
      case PATCH => this.(patchData := patchData[mock.path := mock])
      case DELETE => this.(deleteData := deleteData[mock.path := mock])
      case OTHER(_) => this.(otherData := otherData + [mock])
    }
  }

  ghost predicate KeyedBy(d: map<string, MockData>, m: Method) {
    forall k :: k in d ==> d[k].path == k && d[k].verb == m
  }

  /** A router that holds no mocks */
  const Empty := RouteTables(map[], map[], map[], map[], map[], map[], [])

  /**
   * The answers `answer(_:)` may give: the request method is converted, and the collection
   * of the converted method is searched, the list in insertion order and a dictionary in any
   * order of its keys.
   */
  ghost predicate IsAnswer(t: RouteTables, request: Request, r: Option<MockData>)
    ensures IsAnswer(t, request, r) && r.Some? ==> r.value.Matches(request.url)
    ensures IsAnswer(t, request, r) && MethodFrom(request.verb).OTHER? ==> r.None? || r.value in t.otherData
    ensures IsAnswer(t, request, r) && !MethodFrom(request.verb).OTHER? ==> r.None? || r.value in t.Keyed(MethodFrom(request.verb)).Values
  {
    var m := MethodFrom(request.verb);
    if m.OTHER? then
      r == FirstMatchInArray(t.otherData, request.url, request.verb)
    else
      exists keys :: IsIterationOrder(keys, t.Keyed(m)) && r == FirstMatchInDictionary(t.Keyed(m), keys, request.url)
  }

  /** No mock in the collection of the request's converted method matches the request */
  ghost predicate NothingMatches(t: RouteTables, request: Request) {
    var m := MethodFrom(request.verb);
    if m.OTHER? then
      forall i :: 0 <= i < |t.otherData| ==> !t.otherData[i].MatchesWithMethod(request.url, m)
    else
      forall k :: k in t.Keyed(m) ==> !t.Keyed(m)[k].Matches(request.url)
  }

  // ---------------------------------------------------------------------------------------
  // Registration
  // ---------------------------------------------------------------------------------------

  /** Registration keeps the router's invariant */
  lemma StoredValid(t: RouteTables, mock: MockData)
    requires t.Valid()
    ensures t.Stored(mock).Valid()
  {
    match mock.verb
    case GET => KeyedByUpdate(t.getData, mock);
    case PUT => KeyedByUpdate(t.putData, mock);
    case HEAD => KeyedByUpdate(t.headData, mock);
    case POST => KeyedByUpdate(t.postData, mock);
    case PATCH => KeyedByUpdate(t.patchData, mock);
    case DELETE => KeyedByUpdate(t.deleteData, mock);
    case OTHER(_) =>
      assert t.Stored(mock).otherData == t.otherData + [mock];
  }

  /** Storing a mock under its own path keeps a dictionary of its method keyed by path */
  lemma KeyedByUpdate(d: map<string, MockData>, mock: MockData)
    requires KeyedBy(d, mock.verb)
    ensures KeyedBy(d[mock.path := mock], mock.verb)
  {
  }

  /**
   * Registration changes exactly one collection: a dictionary now maps the mock's path to
   * the mock, or the list has the mock appended; every other collection is unchanged.
   */
  lemma StoredChangesOneCollection(t: RouteTables, mock: MockData, m: Method)
    requires !m.OTHER?
    ensures t.Stored(mock).Keyed(m) == if m == mock.verb then t.Keyed(m)[mock.path := mock] else t.Keyed(m)
    ensures t.Stored(mock).otherData == if mock.verb.OTHER? then t.otherData + [mock] else t.otherData
  {
  }

  /**
   * Last write wins: registering two mocks with the same method and path keeps only the
   * second, exactly as if the first had never been registered.
   */
  lemma LastWriteWins(t: RouteTables, first: MockData, second: MockData)
    requires !first.verb.OTHER?
    requires first.verb == second.verb && first.path == second.path
    ensures t.Stored(first).Stored(second) == t.Stored(second)
  {
  }

  /**
   * An `OTHER` mock is appended: the list grows by one, earlier entries keep their places,
   * and a duplicate of an existing entry is kept as a separate entry.
   */
  lemma OtherAppends(t: RouteTables, mock: MockData)
    requires mock.verb.OTHER?
    ensures |t.Stored(mock).otherData| == |t.otherData| + 1
    ensures t.Stored(mock).otherData[..|t.otherData|] == t.otherData
    ensures t.Stored(mock).otherData[|t.otherData|] == mock
    ensures multiset(t.Stored(mock).otherData)[mock] == multiset(t.otherData)[mock] + 1
  {
    assert t.Stored(mock).otherData == t.otherData + [mock];
  }

  // ---------------------------------------------------------------------------------------
  // Answering
  // ---------------------------------------------------------------------------------------

  /**
   * Only the selected collection is consulted: two routers whose collections for the
   * request's converted method agree give the same answers.
   */
  lemma AnswerReadsOnlySelected(t1: RouteTables, t2: RouteTables, request: Request, r: Option<MockData>)
    requires MethodFrom(request.verb).OTHER? ==> t1.otherData == t2.otherData
    requires !MethodFrom(request.verb).OTHER? ==> t1.Keyed(MethodFrom(request.verb)) == t2.Keyed(MethodFrom(request.verb))
    ensures IsAnswer(t1, request, r) <==> IsAnswer(t2, request, r)
  {
  }

  /**
   * A mock that `answer` returns was stored in the selected collection, carries the
   * request's converted method, and matches the request URL.
   */
  lemma AnswerIsMatchingStoredMock(t: RouteTables, request: Request, mock: MockData)
    requires t.Valid()
    requires IsAnswer(t, request, Some(mock))
    ensures mock.verb == MethodFrom(request.verb)
    ensures mock.Matches(request.url)
    ensures mock.verb.OTHER? ==> mock in t.otherData
    ensures !mock.verb.OTHER? ==> mock.path in t.Keyed(mock.verb) && t.Keyed(mock.verb)[mock.path] == mock
  {
    var m := MethodFrom(request.verb);
    if !m.OTHER? {
      var keys :| IsIterationOrder(keys, t.Keyed(m)) && Some(mock) == FirstMatchInDictionary(t.Keyed(m), keys, request.url);
      var k :| k in t.Keyed(m) && t.Keyed(m)[k] == mock;
    }
  }

  /** `answer` gives nil exactly when nothing in the selected collection matches */
  lemma AnswerMissIffNothingMatches(t: RouteTables, request: Request, r: Option<MockData>)
    requires IsAnswer(t, request, r)
    ensures r.None? <==> NothingMatches(t, request)
  {
    var m := MethodFrom(request.verb);
    if !m.OTHER? {
      var keys :| IsIterationOrder(keys, t.Keyed(m)) && r == FirstMatchInDictionary(t.Keyed(m), keys, request.url);
      DictionaryMissIffNoMatch(t.Keyed(m), keys, request.url);
    }
  }

  /**
   * A mock registered under `PATCH` is never served: a PATCH request is converted to
   * `OTHER("PATCH")` and searches the list, which holds no `PATCH` mock.
   */
  lemma PatchNeverServed(t: RouteTables, request: Request, mock: MockData)
    requires t.Valid()
    requires IsAnswer(t, request, Some(mock))
    ensures mock.verb != PATCH
  {
    AnswerIsMatchingStoredMock(t, request, mock);
  }

  /** Registering a `PATCH` mock changes no answer to any request */
  lemma PatchStoreInvisible(t: RouteTables, mock: MockData, request: Request, r: Option<MockData>)
    requires mock.verb == PATCH
    ensures IsAnswer(t.Stored(mock), request, r) <==> IsAnswer(t, request, r)
  {
    AnswerReadsOnlySelected(t.Stored(mock), t, request, r);
  }

  /**
   * A registered mock is served to a request it matches, provided no other mock of the
   * selected collection could be found first: for a dictionary, no mock under another key
   * matches; for the list, no earlier entry matches.
   */
  lemma ServedAfterStore(t: RouteTables, mock: MockData, request: Request, r: Option<MockData>)
    requires mock.verb == MethodFrom(request.verb) && mock.Matches(request.url)
    requires !mock.verb.OTHER? ==> forall k :: k in t.Keyed(mock.verb) && k != mock.path ==> !t.Keyed(mock.verb)[k].Matches(request.url)
    requires mock.verb.OTHER? ==> FirstMatchInArray(t.otherData, request.url, request.verb).None?
    requires IsAnswer(t.Stored(mock), request, r)
    ensures r == Some(mock)
  {
    var m := mock.verb;
    if m.OTHER? {
      assert t.Stored(mock).otherData == t.otherData + [mock];
      FirstMatchInArrayAppend(t.otherData, mock, request.url, request.verb);
    } else {
      StoredChangesOneCollection(t, mock, m);
      var d := t.Stored(mock).Keyed(m);
      var keys :| IsIterationOrder(keys, d) && r == FirstMatchInDictionary(d, keys, request.url);
      DictionaryUniqueMatch(d, keys, request.url, mock.path);
    }
  }

  /**
   * After a mock is replaced by another with the same method and path, the replaced mock is
   * never served again (unless the two are the same mock).
   */
  lemma ReplacedMockNeverServed(t: RouteTables, first: MockData, second: MockData, request: Request, mock: MockData)
    requires t.Valid()
    requires !first.verb.OTHER? && first.verb == second.verb && first.path == second.path
    requires first != second
    requires IsAnswer(t.Stored(first).Stored(second), request, Some(mock))
    ensures mock != first
  {
    LastWriteWins(t, first, second);
    StoredValid(t, second);
    AnswerIsMatchingStoredMock(t.Stored(second), request, mock);
    StoredChangesOneCollection(t, second, second.verb);
  }

  // ---------------------------------------------------------------------------------------
  // The router object
  // ---------------------------------------------------------------------------------------

  /** The errors `store(_ request:)` can raise */
  datatype StoreError =
    | IncorrectMock    // `MockServerError.incorrectMock`: the request has no body
    | DecodingFailed   // the JSON decoder rejected the body

  class Router {
    var getData: map<string, MockData>
    var putData: map<string, MockData>
    var headData: map<string, MockData>
    var postData: map<string, MockData>
    var patchData: map<string, MockData>
    var deleteData: map<string, MockData>
    var otherData: seq<MockData>

    /** The router's collections as a value */
    function Tables(): RouteTables
      reads this
    {
      RouteTables(getData, putData, headData, postData, patchData, deleteData, otherData)
    }

    ghost predicate Valid()
      reads this
    {
      Tables().Valid()
    }

    constructor ()
      ensures Valid() && Tables() == Empty
    {
      getData, putData, headData, postData, patchData, deleteData := map[], map[], map[], map[], map[], map[];
      otherData := [];
    }

    /** `store(_ mock:)` */
    method Store(mock: MockData)
      requires Valid()
      modifies this
      ensures Valid()
      ensures Tables() == old(Tables()).Stored(mock)
    {
      match mock.verb {
        case GET => getData := getData[mock.path := mock];
        case PUT => putData := putData[mock.path := mock];
        case HEAD => headData := headData[mock.path := mock];
        case POST => postData := postData[mock.path := mock];
        case PATCH => patchData := patchData[mock.path := mock];
        case DELETE => deleteData := deleteData[mock.path := mock];
        case OTHER(_) => otherData := otherData + [mock];
      }
      StoredValid(old(Tables()), mock);
    }

    /**
     * `store(_ request:)`: a request without a body is refused with `incorrectMock`;
     * otherwise the body is decoded (by `decode`, the JSON decoder) and the mock stored.
     */
    method StoreRequest(request: Request, decode: Bytes -> Option<MockData>) returns (error: Option<StoreError>)
      requires Valid()
      modifies this
      ensures Valid()
      ensures request.body.None? ==> error == Some(IncorrectMock) && Tables() == old(Tables())
      ensures request.body.Some? && decode(request.body.value).None? ==>
        error == Some(DecodingFailed) && Tables() == old(Tables())
      ensures request.body.Some? && decode(request.body.value).Some? ==>
        error == None && Tables() == old(Tables()).Stored(decode(request.body.value).value)
    {
      if request.body.None? {
        return Some(IncorrectMock);
      }
      var decoded := decode(request.body.value);
      if decoded.None? {
        return Some(DecodingFailed);
      }
      Store(decoded.value);
      error := None;
    }

    /**
     * `answer(_:)`: the request method selects one collection, which is searched for a mock
     * matching the request.
     */
    method Answer(request: Request) returns (mock: Option<MockData>)
      requires Valid()
      ensures IsAnswer(Tables(), request, mock)
      ensures mock.Some? ==> mock.value.verb == MethodFrom(request.verb) && mock.value.Matches(request.url)
      ensures mock.None? <==> NothingMatches(Tables(), request)
    {
      var keys: seq<string>;
      match MethodFrom(request.verb) {
        case GET => mock, keys := FirstMatchAnyOrder(getData, request.url);
        case PUT => mock, keys := FirstMatchAnyOrder(putData, request.url);
        case HEAD => mock, keys := FirstMatchAnyOrder(headData, request.url);
        case POST => mock, keys := FirstMatchAnyOrder(postData, request.url);
        case PATCH =>
          // The conversion never yields PATCH, so `patchData` is never searched.
          assert false;
        case DELETE => mock, keys := FirstMatchAnyOrder(deleteData, request.url);
        case OTHER(_) => mock := FirstMatchInArray(otherData, request.url, request.verb);
      }
      ghost var m := MethodFrom(request.verb);
      if !m.OTHER? {
        assert IsIterationOrder(keys, Tables().Keyed(m)) && mock == FirstMatchInDictionary(Tables().Keyed(m), keys, request.url);
      }
      if mock.Some? {
        AnswerIsMatchingStoredMock(Tables(), request, mock.value);
      }
      AnswerMissIffNothingMatches(Tables(), request, mock);
    }
  }

  /** `Dictionary.firstMatch(url:)` as it runs: over the keys in whatever order they come */
  method FirstMatchAnyOrder(d: map<string, MockData>, url: Url) returns (r: Option<MockData>, keys: seq<string>)
    ensures IsIterationOrder(keys, d) && r == FirstMatchInDictionary(d, keys, url)
  {
    keys := KeysOf(d);
    r := FirstMatchInDictionary(d, keys, url);
  }
}
