/**
 * The two matchers of the `String` extension: the segment-wise path match of a mock's path
 * pattern against a request path, and the subset match of a mock's query constraints against
 * a request's query items. Each loop is a method proved equal to a reference predicate.
 */
module StringMatches {
  import opened Http

  // ---------------------------------------------------------------------------------------
  // Path matching
  // ---------------------------------------------------------------------------------------

  /**
   * The request segments match the pattern segments: the counts agree and, position by
   * position, the pattern segment is the wildcard or equals the request segment.
   */
  predicate PathMatches(pattern: seq<PathComponent>, request: seq<PathComponent>) {
    && |request| == |pattern|
    && forall i :: 0 <= i < |pattern| ==> pattern[i] == Anything || request[i] == pattern[i]
  }

  /**
   * `pattern.matches(url:)`: the guard on the segment counts, then one pass over the zipped
   * segments that skips wildcards and stops at the first mismatch.
   */
  method MatchesUrl(pattern: string, url: Url) returns (matched: bool)
    ensures matched <==> PathMatches(Segments(pattern), Segments(url.path))
  {
    var requestComponents := Segments(url.path);
    var patternComponents := Segments(pattern);
    if |requestComponents| != |patternComponents| {
      return false;
    }
    matched := true;
    for i := 0 to |requestComponents|
      invariant matched
      invariant forall j :: 0 <= j < i ==>
        patternComponents[j] == Anything || requestComponents[j] == patternComponents[j]
    {
      if patternComponents[i] == Anything {
        continue;
      }
      if requestComponents[i] != patternComponents[i] {
        matched := false;
        break;
      }
    }
  }

  /** Segment lists of different lengths never match: there is no prefix or suffix match */
  lemma CountsMustAgree(pattern: seq<PathComponent>, request: seq<PathComponent>)
    requires |pattern| != |request|
    ensures !PathMatches(pattern, request)
  {
  }

  /** A wildcard position accepts any request segment: replacing it keeps a match a match */
  lemma WildcardAcceptsAnySegment(pattern: seq<PathComponent>, request: seq<PathComponent>, i: nat, segment: PathComponent)
    requires PathMatches(pattern, request)
    requires i < |pattern| && pattern[i] == Anything
    ensures PathMatches(pattern, request[i := segment])
  {
  }

  /** A literal position that differs from the request segment makes the match fail */
  lemma LiteralMismatchFails(pattern: seq<PathComponent>, request: seq<PathComponent>, i: nat)
    requires i < |pattern| && i < |request|
    requires pattern[i] != Anything && request[i] != pattern[i]
    ensures !PathMatches(pattern, request)
  {
  }

  /** For a pattern without wildcards, matching is segment-list equality, in both directions */
  lemma {:induction false} LiteralPatternMatchesExactly(pattern: seq<PathComponent>, request: seq<PathComponent>)
    requires forall i :: 0 <= i < |pattern| ==> pattern[i] != Anything
    ensures PathMatches(pattern, request) <==> request == pattern
  {
    if PathMatches(pattern, request) {
      assert forall i :: 0 <= i < |pattern| ==> request[i] == pattern[i];
    }
  }

  /** Every pattern matches its own segments, wildcards included */
  lemma PatternMatchesItself(pattern: seq<PathComponent>)
    ensures PathMatches(pattern, pattern)
  {
  }

  // ---------------------------------------------------------------------------------------
  // Query matching
  // ---------------------------------------------------------------------------------------

  /** `items.first { $0.name == name }` */
  function FirstNamed(items: seq<QueryItem>, name: string): (r: Option<QueryItem>)
    ensures r.Some? ==> r.value in items && r.value.name == name
    ensures r.None? <==> forall i :: 0 <= i < |items| ==> items[i].name != name
  {
    if items == [] then None
    else if items[0].name == name then Some(items[0])
    else FirstNamed(items[1..], name)
  }

  /** The item `FirstNamed` returns is the one at the lowest index carrying the name */
  lemma {:induction false} FirstNamedIsLowest(items: seq<QueryItem>, name: string, i: nat)
    requires i < |items| && items[i].name == name
    requires forall j :: 0 <= j < i ==> items[j].name != name
    ensures FirstNamed(items, name) == Some(items[i])
  {
    if i > 0 {
      FirstNamedIsLowest(items[1..], name, i - 1);
    }
  }

  /** `FirstNamedIsLowest` at every index that holds the first item with the name */
  lemma FirstNamedIsLowestEverywhere(items: seq<QueryItem>, name: string)
    ensures forall i :: 0 <= i < |items| && items[i].name == name && (forall j :: 0 <= j < i ==> items[j].name != name) ==>
      FirstNamed(items, name) == Some(items[i])
  {
    forall i | 0 <= i < |items| && items[i].name == name && (forall j :: 0 <= j < i ==> items[j].name != name)
      ensures FirstNamed(items, name) == Some(items[i])
    {
      FirstNamedIsLowest(items, name, i);
    }
  }

  /**
   * `items.first { $0.name == name }?.value`: optional chaining flattens the two levels, so a
   * missing name and a present name without a value both give `None`.
   */
  function FirstValue(items: seq<QueryItem>, name: string): (r: Option<string>)
    ensures r.Some? ==> exists i :: 0 <= i < |items| && items[i].name == name && items[i].value == r
    ensures (forall i :: 0 <= i < |items| ==> items[i].name != name) ==> r.None?
    ensures forall i :: 0 <= i < |items| && items[i].name == name && (forall j :: 0 <= j < i ==> items[j].name != name) ==>
      r == items[i].value
  {
    FirstNamedIsLowestEverywhere(items, name);
    match FirstNamed(items, name)
    case None => None
    case Some(item) => item.value
  }

  /**
   * The request query satisfies the constraints: vacuously when there are no constraints or
   * the request has no parsed query items; otherwise for every constraint item the first
   * request item with that name carries the same optional value.
   */
  predicate QueryMatches(queryParameters: Option<seq<QueryItem>>, query: Option<seq<QueryItem>>) {
    match (queryParameters, query)
    case (Some(constraints), Some(items)) =>
      forall c :: c in constraints ==> FirstValue(items, c.name) == c.value
    case _ => true
  }

  /**
   * `url.string.matches(queryParameters:)`: the three-part guard, then a pass over the
   * constraints that only evaluates while the result is still true.
   */
  method MatchesQueryParameters(url: Url, queryParameters: Option<seq<QueryItem>>) returns (matched: bool)
    ensures matched <==> QueryMatches(queryParameters, url.query)
  {
    if queryParameters.None? || url.query.None? {
      return true;
    }
    var requestedQueryItems := queryParameters.value;
    var queryItems := url.query.value;
    matched := true;
    for i := 0 to |requestedQueryItems|
      invariant matched <==> forall j :: 0 <= j < i ==>
        FirstValue(queryItems, requestedQueryItems[j].name) == requestedQueryItems[j].value
    {
      if matched {
        var requestQueryItem := requestedQueryItems[i];
        matched := (FirstValue(queryItems, requestQueryItem.name) == requestQueryItem.value) && matched;
      }
    }
  }

  /** A request without parsed query items passes every constraint */
  lemma NoQueryPassesAll(queryParameters: Option<seq<QueryItem>>)
    ensures QueryMatches(queryParameters, None)
  {
  }

  /** An empty constraint list is always met */
  lemma EmptyConstraintsPass(query: Option<seq<QueryItem>>)
    ensures QueryMatches(Some([]), query)
  {
  }

  /**
   * Request items whose names no constraint mentions never change the outcome, wherever they
   * are inserted among the request's items, in either direction.
   */
  lemma {:induction false} UnconstrainedItemsIgnored(constraints: seq<QueryItem>, pre: seq<QueryItem>, extra: seq<QueryItem>, post: seq<QueryItem>)
    requires forall c, e :: c in constraints && e in extra ==> c.name != e.name
    ensures QueryMatches(Some(constraints), Some(pre + extra + post)) <==> QueryMatches(Some(constraints), Some(pre + post))
  {
    assert pre + extra + post == pre + (extra + post);
    forall c | c in constraints
      ensures FirstValue(pre + extra + post, c.name) == FirstValue(pre + post, c.name)
    {
      FirstNamedOfAppend(pre, extra + post, c.name);
      FirstNamedOfAppend(pre, post, c.name);
      FirstNamedOfAppend(extra, post, c.name);
    }
  }

  /**
   * When every constraint carries a value, appending any items to a matching query keeps it
   * matching: the first item with each constrained name has already been found.
   */
  lemma {:induction false} AppendedItemsKeepMatch(constraints: seq<QueryItem>, items: seq<QueryItem>, extra: seq<QueryItem>)
    requires forall c :: c in constraints ==> c.value.Some?
    requires QueryMatches(Some(constraints), Some(items))
    ensures QueryMatches(Some(constraints), Some(items + extra))
  {
    forall c | c in constraints
      ensures FirstValue(items + extra, c.name) == c.value
    {
      assert FirstValue(items, c.name) == c.value;
      FirstNamedOfAppend(items, extra, c.name);
    }
  }

  /**
   * A constraint item without a value is met by a request that lacks the name altogether,
   * because the missing item and the missing value compare equal.
   */
  lemma ValuelessConstraintMetByAbsence(name: string, items: seq<QueryItem>)
    requires forall i :: 0 <= i < |items| ==> items[i].name != name
    ensures QueryMatches(Some([QueryItem(name, None)]), Some(items))
  {
  }

  /** Only the first request item with a constrained name is consulted */
  lemma {:induction false} OnlyFirstItemCounts(c: QueryItem, first: QueryItem, items: seq<QueryItem>)
    requires first.name == c.name
    ensures QueryMatches(Some([c]), Some([first] + items)) <==> first.value == c.value
  {
    assert ([first] + items)[0] == first;
    assert FirstValue([first] + items, c.name) == first.value;
  }

  /** Looking up a name in `items + extra` finds the item of `items` when there is one */
  lemma {:induction false} FirstNamedOfAppend(items: seq<QueryItem>, extra: seq<QueryItem>, name: string)
    ensures FirstNamed(items + extra, name) ==
      if FirstNamed(items, name).Some? then FirstNamed(items, name) else FirstNamed(extra, name)
  {
    if items != [] {
      assert (items + extra)[0] == items[0];
      assert (items + extra)[1..] == items[1..] + extra;
      FirstNamedOfAppend(items[1..], extra, name);
    } else {
      assert items + extra == extra;
    }
  }
}
