/**
 * The server object: it owns a router, answers every served request from it (the mock's
 * status and body, or 404), and registers mocks given directly or posted to `setMock`.
 */
module Server {
  import opened Http
  import opened StringMatches
  import opened Mocks
  import opened Routing

  /**
   * The response `respond(_:)` builds from the router's answer: 404 with an empty body when
   * there is none, otherwise the mock's return code and its body bytes verbatim (empty when
   * it has none); both carry a JSON content type.
   */
  function Render(answer: Option<MockData>): (response: Response)
    ensures response.headers == JsonHeaders
    ensures answer.None? ==> response.status == NotFound && response.body == []
    ensures answer.Some? ==>
      response.status == answer.value.returnCode && response.body == answer.value.responseBody.GetOr([])
  {
    match answer
    case None => Response(NotFound, JsonHeaders, [])
    case Some(mock) => Response(mock.returnCode, JsonHeaders, mock.responseBody.GetOr([]))
  }

  /**
   * Round trip: once a mock is registered, a request it matches is answered with the mock's
   * status and body, provided no other mock of the selected collection is found first.
   */
  lemma RegisteredMockIsServed(t: RouteTables, mock: MockData, request: Request, answer: Option<MockData>)
    requires mock.verb == MethodFrom(request.verb) && mock.Matches(request.url)
    requires !mock.verb.OTHER? ==> forall k :: k in t.Keyed(mock.verb) && k != mock.path ==> !t.Keyed(mock.verb)[k].Matches(request.url)
    requires mock.verb.OTHER? ==> FirstMatchInArray(t.otherData, request.url, request.verb).None?
    requires IsAnswer(t.Stored(mock), request, answer)
    ensures Render(answer) == Response(mock.returnCode, JsonHeaders, mock.responseBody.GetOr([]))
  {
    ServedAfterStore(t, mock, request, answer);
  }

  /** A request that no mock of its method's collection matches is answered 404, empty */
  lemma MissIsNotFound(t: RouteTables, request: Request, answer: Option<MockData>)
    requires NothingMatches(t, request)
    requires IsAnswer(t, request, answer)
    ensures Render(answer) == Response(NotFound, JsonHeaders, [])
  {
    AnswerMissIffNothingMatches(t, request, answer);
  }

  // ---------------------------------------------------------------------------------------
  // The cat-facts scenario
  // ---------------------------------------------------------------------------------------

  /** The example UI test's mock: GET `facts/random`, no query constraints, the fixture body */
  function ExampleMock(body: Option<Bytes>): MockData {
    MockData(path := "facts/random", responseBody := body, verb := GET)
  }

  /**
   * The example app's request, `GET /facts/random?animal_type=cat&amount=20`, is served by
   * the example test's mock with 200 and the fixture body (empty when the fixture is missing).
   */
  lemma ExampleTestServed(body: Option<Bytes>)
    ensures forall answer :: IsAnswer(Empty.Stored(ExampleMock(body)), CatRequest, answer) ==>
      Render(answer) == Response(Ok, JsonHeaders, body.GetOr([]))
  {
    var mock := ExampleMock(body);
    assert "/" + mock.path == CatRequest.url.path;
    LeadingSlashIgnored(mock.path);
    forall answer | IsAnswer(Empty.Stored(mock), CatRequest, answer)
      ensures Render(answer) == Response(Ok, JsonHeaders, body.GetOr([]))
    {
      RegisteredMockIsServed(Empty, mock, CatRequest, answer);
    }
  }

  /**
   * A variant of the example's mock that also constrains the query to `animal_type=cat`, to
   * show the query matcher at work on the app's request.
   */
  function FactsMock(body: Bytes): MockData {
    MockData(path := "facts/random", responseBody := Some(body), verb := GET,
             queryParameters := Some([QueryItem("animal_type", Some("cat"))]))
  }

  const CatRequest := Request(HttpMethod("GET"),
    Url("/facts/random", Some([QueryItem("animal_type", Some("cat")), QueryItem("amount", Some("20"))])), None)

  const DogRequest := Request(HttpMethod("GET"),
    Url("/facts/random", Some([QueryItem("animal_type", Some("dog"))])), None)

  /** `GET /facts/random?animal_type=cat&amount=20` is served the registered body with 200 */
  lemma CatRequestServed(body: Bytes)
    ensures forall answer :: IsAnswer(Empty.Stored(FactsMock(body)), CatRequest, answer) ==>
      Render(answer) == Response(Ok, JsonHeaders, body)
  {
    var mock := FactsMock(body);
    assert "/" + mock.path == CatRequest.url.path;
    LeadingSlashIgnored(mock.path);
    assert FirstValue(CatRequest.url.query.value, "animal_type") == Some("cat");
    forall answer | IsAnswer(Empty.Stored(mock), CatRequest, answer)
      ensures Render(answer) == Response(Ok, JsonHeaders, body)
    {
      RegisteredMockIsServed(Empty, mock, CatRequest, answer);
    }
  }

  /** `GET /facts/random?animal_type=dog` is answered 404 */
  lemma DogRequestNotFound(body: Bytes)
    ensures forall answer :: IsAnswer(Empty.Stored(FactsMock(body)), DogRequest, answer) ==>
      Render(answer) == Response(NotFound, JsonHeaders, [])
  {
    var mock := FactsMock(body);
    var t := Empty.Stored(mock);
    assert FirstValue(DogRequest.url.query.value, "animal_type") == Some("dog");
    assert "dog"[0] != "cat"[0];
    assert t.Keyed(GET) == map["facts/random" := mock];
    forall answer | IsAnswer(t, DogRequest, answer)
      ensures Render(answer) == Response(NotFound, JsonHeaders, [])
    {
      MissIsNotFound(t, DogRequest, answer);
    }
  }

  // ---------------------------------------------------------------------------------------
  // The server object
  // ---------------------------------------------------------------------------------------

  class Vaporiser {
    var router: Router

    ghost predicate Valid()
      reads this, router
    {
      router.Valid()
    }

    constructor ()
      ensures Valid() && fresh(router) && router.Tables() == Empty
    {
      router := new Router();
    }

    /** `respond(_:)`: the router's answer to the request, rendered */
    method Respond(request: Request) returns (response: Response)
      requires Valid()
      ensures exists answer :: IsAnswer(router.Tables(), request, answer) && response == Render(answer)
      ensures response.headers == JsonHeaders
      ensures NothingMatches(router.Tables(), request) ==> response == Response(NotFound, JsonHeaders, [])
    {
      var answer := router.Answer(request);
      response := Render(answer);
    }

    /** `store(mock:)`: exactly the router's `store` */
    method StoreMock(mock: MockData)
      requires Valid()
      modifies router
      ensures Valid()
      ensures router.Tables() == old(router.Tables()).Stored(mock)
    {
      router.Store(mock);
    }

    /**
     * The `setMock` handler: the posted mock is stored and the reply is 200 with an empty
     * body; a missing or undecodable body raises the router's error and stores nothing.
     */
    method SetMock(request: Request, decode: Bytes -> Option<MockData>) returns (result: Result<Response, StoreError>)
      requires Valid()
      modifies router
      ensures Valid()
      ensures result.Success? <==> request.body.Some? && decode(request.body.value).Some?
      ensures result.Success? ==>
        && result.value == Response(Ok, JsonHeaders, [])
        && router.Tables() == old(router.Tables()).Stored(decode(request.body.value).value)
      ensures result.Failure? ==>
        && result.error == (if request.body.None? then IncorrectMock else DecodingFailed)
        && router.Tables() == old(router.Tables())
    {
      var error := router.StoreRequest(request, decode);
      if error.Some? {
        return Failure(error.value);
      }
      result := Success(Response(Ok, JsonHeaders, []));
    }
  }
}
