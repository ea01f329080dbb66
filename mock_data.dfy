/**
 * A registered mock: what request it expects and what it answers. Also the conversion of a
 * request method into the mock's method enumeration, and the two `firstMatch` searches over
 * stored mocks.
 */
module Mocks {
  import opened Http
  import opened StringMatches

  /** `MockData.Method`: five well-known methods, PATCH, and any other verb by name */
  datatype Method = GET | PUT | HEAD | POST | PATCH | DELETE | OTHER(name: string)

  /** The method names the conversion recognises; PATCH is not among them */
  const ConvertedNames: set<string> := {"GET", "PUT", "HEAD", "POST", "DELETE"}

  /** The name a method stands for */
  function Name(m: Method): string {
    match m
    case GET => "GET"
    case PUT => "PUT"
    case HEAD => "HEAD"
    case POST => "POST"
    case PATCH => "PATCH"
    case DELETE => "DELETE"
    case OTHER(name) => name
  }

  /**
   * `Method(httpMethod:)`: GET, PUT, HEAD, POST and DELETE become the case of that name and
   * every other method, PATCH included, becomes `OTHER` carrying its raw name.
   */
  function MethodFrom(httpMethod: HttpMethod): (m: Method)
    ensures m != PATCH
    ensures m.OTHER? <==> httpMethod.rawValue !in ConvertedNames
    ensures Name(m) == httpMethod.rawValue
  {
    match httpMethod.rawValue
    case "GET" => GET
    case "PUT" => PUT
    case "HEAD" => HEAD
    case "POST" => POST
    case "DELETE" => DELETE
    case _ => OTHER(httpMethod.rawValue)
  }

  /**
   * Converting the name of a method gives back that method, except for PATCH and for an
   * `OTHER` that carries a recognised name.
   */
  lemma MethodFromName(m: Method)
    requires m != PATCH && !(m.OTHER? && m.name in ConvertedNames)
    ensures MethodFrom(HttpMethod(Name(m))) == m
  {
  }

  /** A PATCH request is converted to `OTHER("PATCH")`, never to `PATCH` */
  lemma PatchBecomesOther()
    ensures MethodFrom(HttpMethod("PATCH")) == OTHER("PATCH")
  {
  }

  /**
   * `MockData`, with its initialiser's defaults: no body, no query constraints, status 200.
   * The response body field is named `responseBody`: the struct declares it as `payload`
   * while the responder reads `responseBody` and the example tests pass `responseBody:`,
   * so this one optional byte field stands for both spellings.
   */
  datatype MockData = MockData(
    path: string,
    responseBody: Option<Bytes> := None,
    verb: Method,
    queryParameters: Option<seq<QueryItem>> := None,
    returnCode: int := 200)
  {
    /** `matches(url:)`: the path pattern matches the request path and the query constraints hold */
    predicate Matches(url: Url)
      ensures Matches(url) ==> |Segments(url.path)| == |Segments(path)|
      ensures queryParameters.None? && Segments(url.path) == Segments(path) ==> Matches(url)
      ensures url.query.None? ==> (Matches(url) <==> PathMatches(Segments(path), Segments(url.path)))
    {
      PathMatches(Segments(path), Segments(url.path)) && QueryMatches(queryParameters, url.query)
    }

    /** `matches(url:method:)`: the method is this mock's, and the URL matches */
    predicate MatchesWithMethod(url: Url, requested: Method)
      ensures MatchesWithMethod(url, requested) ==> requested == verb
      ensures requested == verb ==> (MatchesWithMethod(url, requested) <==> Matches(url))
    {
      requested == verb && Matches(url)
    }
  }

  /** The initialiser's defaults hold, and the given fields are stored as given */
  lemma InitDefaults(path: string, verb: Method)
    ensures var m := MockData(path := path, verb := verb);
      m.path == path && m.verb == verb &&
      m.responseBody == None && m.queryParameters == None && m.returnCode == 200
  {
  }

  /** A mock matches a URL exactly when its path pattern and its query constraints both do */
  lemma MatchesIsPathAndQuery(mock: MockData, url: Url)
    ensures mock.Matches(url) <==>
      && |Segments(url.path)| == |Segments(mock.path)|
      && (forall i :: 0 <= i < |Segments(mock.path)| ==>
            Segments(mock.path)[i] == Anything || Segments(url.path)[i] == Segments(mock.path)[i])
      && QueryMatches(mock.queryParameters, url.query)
  {
  }

  /** With a method, a mock matches exactly when the method is its own and the URL matches */
  lemma MatchesWithMethodIsGuarded(mock: MockData, url: Url, requested: Method)
    ensures mock.MatchesWithMethod(url, requested) <==> requested == mock.verb && mock.Matches(url)
    ensures requested != mock.verb ==> !mock.MatchesWithMethod(url, requested)
  {
  }

  /** A mock without query constraints matches every URL whose path has its segments */
  lemma UnconstrainedMockMatchesPath(mock: MockData, url: Url)
    requires mock.queryParameters == None
    requires Segments(url.path) == Segments(mock.path)
    ensures mock.Matches(url)
  {
  }

  // ---------------------------------------------------------------------------------------
  // Searches
  // ---------------------------------------------------------------------------------------

  /**
   * `Dictionary.firstMatch(url:)`: the value under the first of `keys` whose mock matches.
   * `keys` is the dictionary's key order, which the language leaves unspecified; a key
   * without a value counts as no match (`?? false`).
   */
  function FirstMatchInDictionary(d: map<string, MockData>, keys: seq<string>, url: Url): (r: Option<MockData>)
    ensures r.Some? ==> r.value in d.Values && r.value.Matches(url)
    ensures r.None? <==> forall i :: 0 <= i < |keys| ==> !(keys[i] in d && d[keys[i]].Matches(url))
  {
    if keys == [] then None
    else if keys[0] in d && d[keys[0]].Matches(url) then Some(d[keys[0]])
    else FirstMatchInDictionary(d, keys[1..], url)
  }

  /** Over the dictionary's own keys, in any order, the search fails iff no stored mock matches */
  lemma DictionaryMissIffNoMatch(d: map<string, MockData>, keys: seq<string>, url: Url)
    requires IsIterationOrder(keys, d)
    ensures FirstMatchInDictionary(d, keys, url).None? <==> forall k :: k in d ==> !d[k].Matches(url)
  {
    if FirstMatchInDictionary(d, keys, url).None? {
      forall k | k in d
        ensures !d[k].Matches(url)
      {
        var i :| 0 <= i < |keys| && keys[i] == k;
      }
    }
  }

  /** When exactly one stored mock matches, every key order finds that mock */
  lemma {:induction false} DictionaryUniqueMatch(d: map<string, MockData>, keys: seq<string>, url: Url, key: string)
    requires key in d && d[key].Matches(url)
    requires forall k :: k in d && k != key ==> !d[k].Matches(url)
    requires key in keys
    ensures FirstMatchInDictionary(d, keys, url) == Some(d[key])
  {
    if keys[0] != key {
      DictionaryUniqueMatch(d, keys[1..], url, key);
    }
  }

  /**
   * `Array.firstMatch(url:method:)`: the first mock, in insertion order, that matches the URL
   * and the converted request method.
   */
  function FirstMatchInArray(mocks: seq<MockData>, url: Url, httpMethod: HttpMethod): (r: Option<MockData>)
    ensures r.Some? ==> r.value in mocks && r.value.MatchesWithMethod(url, MethodFrom(httpMethod))
    ensures r.None? <==> forall i :: 0 <= i < |mocks| ==> !mocks[i].MatchesWithMethod(url, MethodFrom(httpMethod))
  {
    if mocks == [] then None
    else if mocks[0].MatchesWithMethod(url, MethodFrom(httpMethod)) then Some(mocks[0])
    else FirstMatchInArray(mocks[1..], url, httpMethod)
  }

  /** The mock the array search returns is the lowest-index one that matches */
  lemma {:induction false} FirstMatchInArrayIsLowest(mocks: seq<MockData>, url: Url, httpMethod: HttpMethod, i: nat)
    requires i < |mocks| && mocks[i].MatchesWithMethod(url, MethodFrom(httpMethod))
    requires forall j :: 0 <= j < i ==> !mocks[j].MatchesWithMethod(url, MethodFrom(httpMethod))
    ensures FirstMatchInArray(mocks, url, httpMethod) == Some(mocks[i])
  {
    if i > 0 {
      FirstMatchInArrayIsLowest(mocks[1..], url, httpMethod, i - 1);
    }
  }

  /**
   * Appending a mock never hides an earlier answer: the search over `mocks + [m]` answers as
   * the search over `mocks` when that finds something, and otherwise tries `m`.
   */
  lemma {:induction false} FirstMatchInArrayAppend(mocks: seq<MockData>, m: MockData, url: Url, httpMethod: HttpMethod)
    ensures FirstMatchInArray(mocks + [m], url, httpMethod) ==
      if FirstMatchInArray(mocks, url, httpMethod).Some? then FirstMatchInArray(mocks, url, httpMethod)
      else if m.MatchesWithMethod(url, MethodFrom(httpMethod)) then Some(m)
      else None
  {
    if mocks == [] {
      assert mocks + [m] == [m];
      assert [m][1..] == [];
    } else {
      assert (mocks + [m])[0] == mocks[0];
      assert (mocks + [m])[1..] == mocks[1..] + [m];
      FirstMatchInArrayAppend(mocks[1..], m, url, httpMethod);
    }
  }
}
