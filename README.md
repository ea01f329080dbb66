# Vaporiser matching and routing engine, in Dafny

Vaporiser is a mock HTTP server for UI tests. A test registers *mocks*. A mock has a path
pattern, a method, optional query constraints, a return code and an optional response body.
The server answers every incoming request with the first mock that matches it, or with 404.
This project models the engine that does this work:

- `Http` (`http.dfy`): the external values the engine reads. These are Foundation's
  `URLQueryItem` and `Data`, Vapor's `PathComponent`, `URI`, `Request` and `Response`, and
  SwiftNIO's `HTTPMethod`. It also holds Vapor's path splitting (`Segments`) and Swift's
  dictionary key enumeration, whose order is unspecified (`KeysOf`).
- `StringMatches` (`string_matches.dfy`): the two loops of the `String` extension. Each is
  a method proved equal to a reference predicate. `PathMatches` is the segment-wise match
  with the `*` wildcard. `QueryMatches` is the subset match of query constraints.
- `Mocks` (`mock_data.dfy`): `MockData` with its initialiser defaults, `matches(url:)`,
  `matches(url:method:)`, the `Method` enumeration and its conversion from a request
  method, and the two `firstMatch` searches.
- `Routing` (`router.dfy`): the `Router` class with its seven collections, `store` for a
  mock and for a posted request, and `answer`. `RouteTables` is the value of those
  collections. `Stored` and `IsAnswer` specify the class's methods. The lemmas about
  registration and answering are stated over `RouteTables`.
- `Server` (`vaporiser.dfy`): the `Vaporiser` class. `respond` builds the response,
  `store(mock:)` registers a mock directly, and the `setMock` handler registers a posted
  mock. The module also proves the example UI test's scenario: its unconstrained GET mock for
  `facts/random` answers the example app's request. A variant of that mock with an
  `animal_type=cat` constraint, and a `dog` request that the app never sends, show the query
  matcher at work on the same request.

External inputs become plain values:
- A request's URL is given already parsed. `Url.path` is the request path.
  `Url.query` is what `URLComponents` yields as the query items: `None` when the URL does
  not parse or has no query.
- The JSON decoder of `setMock` is a function parameter `decode`.
- The order of a dictionary's keys is chosen nondeterministically by `KeysOf`. The answer
  specification `IsAnswer` admits every order.

Behaviours of the code as written, pinned down by lemmas:
- A request without query items passes every query constraint (`NoQueryPassesAll`).
- A constraint item without a value is met when the request lacks that name. This is
  because `first(where:)?.value` flattens a missing item and a missing value to the same
  `nil` (`ValuelessConstraintMetByAbsence`). So a valueless constraint does not require the
  name to be present.
- Request items whose name no constraint mentions are ignored wherever they stand, whatever
  the constraints' values (`UnconstrainedItemsIgnored`). When every constraint carries a
  value, appending any items, named or not, keeps a match (`AppendedItemsKeepMatch`).
- `Method(httpMethod:)` never yields `.PATCH`. A PATCH request searches the `OTHER` list for
  `OTHER("PATCH")`. Mocks registered under `.PATCH` are therefore never served
  (`PatchNeverServed`, `PatchStoreInvisible`). The `.PATCH` branch of `answer` is proved
  unreachable.
- Only the first request item with a constrained name is consulted (`OnlyFirstItemCounts`).
- The body field: `MockData` declares `payload`, but `respond` reads `responseBody` and the
  example tests pass `responseBody:`. The model has one optional byte field,
  `responseBody`, which stands for both spellings.

Other behaviours of the code that the model keeps:
- A mock constrains only the path, the method and the query. The code has no header or
  body constraints.
- When several entries of a method's dictionary match, the dictionary's unspecified key
  order decides which one is answered. The model admits every order.
- A missing or undecodable `setMock` body is thrown from the handler, and Vapor's error
  handling picks the status. The model returns the thrown error.

## Model

| member | source | states |
|---|---|---|
| `Http.Segments` | Sources/Vaporiser/MockData.swift:20-22 | Each segment is the wildcard or a literal that is non-empty, has no '/', and is never the wildcard text `*`. |
| `Http.SegmentsSpellPath` | Sources/Vaporiser/MockData.swift:20-22 | The segments' texts written one after another are the path with every '/' removed: splitting keeps every other character, in order. |
| `Http.PiecesSpellPath` | Sources/Vaporiser/MockData.swift:20-22 | The pieces of a split, written one after another, are the piece read so far followed by the rest of the input without its '/'. |
| `Http.EmptyPiecesDropped` | Sources/Vaporiser/MockData.swift:20-22 | Empty pieces vanish: `a//b` has the two segments `a` and `b`. |
| `Http.StarPieceIsWildcard` | Sources/Vaporiser/MockData.swift:20-22 | A `*` piece is the wildcard, and leading and trailing '/' add no segment: `/*/x/` is the wildcard followed by `x`. |
| `Http.Pieces` | Sources/Vaporiser/MockData.swift:20-22 | Every piece of a split path is non-empty and free of '/'. |
| `Http.LeadingSlashIgnored` | Example/ExampleUITests/ExampleUITests.swift:29-33 | A leading '/' does not change the segments, so the mock path `facts/random` and the request path `/facts/random` have the same segments. |
| `Http.KeysOf` | Sources/Vaporiser/MockData.swift:57 | The dictionary's keys come out each exactly once, in an unspecified order. |
| `StringMatches.MatchesUrl` | Sources/Vaporiser/Extensions/String+Matches.swift:10-29 | The loop's result is true exactly when the segment counts agree and every pattern segment is `*` or equals the request segment at its position. |
| `StringMatches.CountsMustAgree` | Sources/Vaporiser/Extensions/String+Matches.swift:11-13 | Different segment counts never match. There is no prefix or suffix matching. |
| `StringMatches.WildcardAcceptsAnySegment` | Sources/Vaporiser/Extensions/String+Matches.swift:18-20 | A `*` position accepts any request segment. Replacing that segment keeps a match. |
| `StringMatches.LiteralMismatchFails` | Sources/Vaporiser/Extensions/String+Matches.swift:22-25 | A literal pattern segment that differs from the request segment makes the match false. |
| `StringMatches.LiteralPatternMatchesExactly` | Sources/Vaporiser/Extensions/String+Matches.swift:10-28 | A pattern without wildcards matches a request exactly when the two segment lists are equal (both directions). |
| `StringMatches.PatternMatchesItself` | Sources/Vaporiser/Extensions/String+Matches.swift:10-28 | Every pattern matches its own segments. |
| `StringMatches.FirstNamed` | Sources/Vaporiser/Extensions/String+Matches.swift:37 | The lookup returns an item of the query that has the name. It returns nil exactly when no item has the name. |
| `StringMatches.FirstNamedIsLowest` | Sources/Vaporiser/Extensions/String+Matches.swift:37 | The item returned is the one at the lowest index with that name. |
| `StringMatches.FirstNamedOfAppend` | Sources/Vaporiser/Extensions/String+Matches.swift:37 | Looking up a name in a concatenation finds the first part's item when there is one, and otherwise searches the second part. |
| `StringMatches.MatchesQueryParameters` | Sources/Vaporiser/Extensions/String+Matches.swift:31-40 | The guarded loop's result is true when there are no constraints or no parsed query items. Otherwise it is true exactly when every constraint's first same-named request item carries an equal optional value. |
| `StringMatches.NoQueryPassesAll` | Sources/Vaporiser/Extensions/String+Matches.swift:32-33 | A request without query items passes any constraint. |
| `StringMatches.EmptyConstraintsPass` | Sources/Vaporiser/Extensions/String+Matches.swift:35-39 | An empty constraint list always matches. |
| `StringMatches.FirstValue` | Sources/Vaporiser/Extensions/String+Matches.swift:37 | The result is the value of the first request item with the name. No item with the name gives nil. |
| `StringMatches.UnconstrainedItemsIgnored` | Sources/Vaporiser/Extensions/String+Matches.swift:36-38 | Inserting request items whose names no constraint mentions, anywhere among the request's items, never changes the result, in either direction. |
| `StringMatches.AppendedItemsKeepMatch` | Sources/Vaporiser/Extensions/String+Matches.swift:36-38 | When every constraint carries a value, appending any items keeps a match. |
| `StringMatches.ValuelessConstraintMetByAbsence` | Sources/Vaporiser/Extensions/String+Matches.swift:37 | A constraint without a value is met by a request that lacks the name. |
| `StringMatches.OnlyFirstItemCounts` | Sources/Vaporiser/Extensions/String+Matches.swift:37 | Only the first request item with a constrained name decides that constraint. |
| `Mocks.MethodFrom` | Sources/Vaporiser/MockData.swift:42-51 | GET, PUT, HEAD, POST and DELETE become their own case. Every other name becomes `OTHER` carrying the raw name. The result is never `PATCH`, and its name is the request method's name. |
| `Mocks.MethodFromName` | Sources/Vaporiser/MockData.swift:42-51 | Converting a method's name gives back that method, for every method except PATCH and an `OTHER` carrying one of the five recognised names. |
| `Mocks.PatchBecomesOther` | Sources/Vaporiser/MockData.swift:49 | A PATCH request converts to `OTHER("PATCH")`. |
| `Mocks.InitDefaults` | Sources/Vaporiser/MockData.swift:12-18 | The defaults are no body, no query constraints and return code 200. Path and method are stored as given. |
| `Mocks.MockData.Matches` | Sources/Vaporiser/MockData.swift:24-26 | A match needs equal segment counts. A mock without query constraints matches a URL with its segments. Without request query items, the path match alone decides. |
| `Mocks.MockData.MatchesWithMethod` | Sources/Vaporiser/MockData.swift:28-31 | A match needs the mock's own method. With that method, the URL match alone decides. |
| `Mocks.MatchesIsPathAndQuery` | Sources/Vaporiser/MockData.swift:24-26 | A mock matches a URL exactly when the segment-wise path match and the query match both hold. |
| `Mocks.MatchesWithMethodIsGuarded` | Sources/Vaporiser/MockData.swift:28-31 | With a method, a mock matches exactly when the method is the mock's and the URL matches. A different method never matches. |
| `Mocks.UnconstrainedMockMatchesPath` | Sources/Vaporiser/MockData.swift:24-26 | A mock without query constraints matches every URL whose path has the mock's segments, whatever its query. |
| `Mocks.FirstMatchInDictionary` | Sources/Vaporiser/MockData.swift:56-61 | A result is a stored value that matches the URL. Nil means no key in the given order holds a matching value. |
| `Mocks.DictionaryMissIffNoMatch` | Sources/Vaporiser/MockData.swift:57-59 | In any order of the dictionary's keys, the search is nil exactly when no stored value matches. |
| `Mocks.DictionaryUniqueMatch` | Sources/Vaporiser/MockData.swift:57-60 | When exactly one stored value matches, every key order finds it. |
| `Mocks.FirstMatchInArray` | Sources/Vaporiser/MockData.swift:65-67 | A result is an element that matches the URL and the converted method. Nil means no element does. |
| `Mocks.FirstMatchInArrayIsLowest` | Sources/Vaporiser/MockData.swift:66 | The result is the lowest-index matching element. |
| `Mocks.FirstMatchInArrayAppend` | Sources/Vaporiser/MockData.swift:66 | Appending an element never hides an earlier answer. The new element is found only when nothing before it matches. |
| `Routing.RouteTables.Stored` | Sources/Vaporiser/Router.swift:24-40 | A keyed mock is afterwards found under its path in its method's dictionary. An `OTHER` mock is appended to the list. |
| `Routing.IsAnswer` | Sources/Vaporiser/Router.swift:54-71 | An admissible answer matches the request URL and comes from the collection of the request's converted method: the list for `OTHER`, one of the dictionary's values otherwise. |
| `Routing.StoredValid` | Sources/Vaporiser/Router.swift:24-40 | Registration keeps the invariant. Each dictionary holds, under a key, a mock with that path and the dictionary's method, and the list holds only `OTHER` mocks. |
| `Routing.KeyedByUpdate` | Sources/Vaporiser/Router.swift:27 | Assigning a mock under its own path keeps a dictionary of its method keyed by path. |
| `Routing.StoredChangesOneCollection` | Sources/Vaporiser/Router.swift:24-40 | Storing a mock maps its path to it in its method's dictionary, or appends it to the list. Every other collection is unchanged. |
| `Routing.LastWriteWins` | Sources/Vaporiser/Router.swift:27 | Storing two mocks with the same method and path gives the same router as storing only the second. |
| `Routing.OtherAppends` | Sources/Vaporiser/Router.swift:38-39 | An `OTHER` mock is appended. The list grows by one, earlier entries keep their order, and duplicates are kept. |
| `Routing.AnswerReadsOnlySelected` | Sources/Vaporiser/Router.swift:56-71 | Two routers that agree on the collection of the request's converted method give the same answers. |
| `Routing.AnswerIsMatchingStoredMock` | Sources/Vaporiser/Router.swift:54-79 | An answer is stored in the selected collection, has the request's converted method and matches the URL. |
| `Routing.AnswerMissIffNothingMatches` | Sources/Vaporiser/Router.swift:73-79 | The answer is nil exactly when nothing in the selected collection matches. |
| `Routing.PatchNeverServed` | Sources/Vaporiser/Router.swift:65-70 | No answer is ever a `PATCH` mock. |
| `Routing.PatchStoreInvisible` | Sources/Vaporiser/Router.swift:34-35 | Storing a `PATCH` mock changes no answer to any request. |
| `Routing.ServedAfterStore` | Sources/Vaporiser/Router.swift:24-79 | A stored mock is the answer to a request it matches, provided nothing else in the collection would be found first. |
| `Routing.ReplacedMockNeverServed` | Sources/Vaporiser/Router.swift:27 | After a mock is replaced by a different one with the same method and path, the replaced mock is never answered. |
| `Routing.Router.constructor` | Sources/Vaporiser/Router.swift:5-11 | A new router holds seven empty collections. |
| `Routing.Router.Store` | Sources/Vaporiser/Router.swift:24-43 | The new collections are the old ones with the mock stored, and the invariant is kept. |
| `Routing.Router.StoreRequest` | Sources/Vaporiser/Router.swift:13-22 | No body raises `incorrectMock`, and an undecodable body raises the decoder's error. In both cases nothing changes. Otherwise the decoded mock is stored. |
| `Routing.Router.Answer` | Sources/Vaporiser/Router.swift:54-80 | The result is an admissible answer, and any mock returned matches the URL and the request's converted method. The result is nil exactly when nothing in the selected collection matches. |
| `Routing.FirstMatchAnyOrder` | Sources/Vaporiser/MockData.swift:56-61 | The dictionary search runs over some enumeration of the keys and returns what the search over that order returns. |
| `Server.Render` | Sources/Vaporiser/Vaporiser.swift:26-41 | No mock gives 404 with an empty body. A mock gives its return code and its body bytes verbatim, or an empty body if it has none. Both carry `Content-Type: application/json`. |
| `Server.RegisteredMockIsServed` | Sources/Vaporiser/Vaporiser.swift:26-41 | A registered mock that the request matches, with no other candidate found first, is answered with its status and body. |
| `Server.MissIsNotFound` | Sources/Vaporiser/Vaporiser.swift:27-33 | A request that nothing in its collection matches is answered 404 with an empty JSON body. |
| `Server.ExampleTestServed` | Example/ExampleUITests/ExampleUITests.swift:65-71 | The example test's GET mock for `facts/random`, with no query constraints, answers the app's request `/facts/random?animal_type=cat&amount=20` with 200 and the fixture body. |
| `Server.CatRequestServed` | Sources/Vaporiser/Extensions/String+Matches.swift:35-39 | A variant of that mock constrained to `animal_type=cat` also answers the app's request with 200 and its body. The extra `amount` item is ignored. |
| `Server.DogRequestNotFound` | Sources/Vaporiser/Extensions/String+Matches.swift:35-39 | The constrained variant does not answer `?animal_type=dog`, which gets 404. |
| `Server.Vaporiser.constructor` | Sources/Vaporiser/Vaporiser.swift:15 | A new server owns a fresh, empty router. |
| `Server.Vaporiser.Respond` | Sources/Vaporiser/Vaporiser.swift:26-41 | The response renders an admissible router answer. It always carries the JSON header, and it is 404 with an empty body when nothing matches. |
| `Server.Vaporiser.StoreMock` | Sources/Vaporiser/Vaporiser.swift:43-45 | The effect is exactly the router's `store`. |
| `Server.Vaporiser.SetMock` | Sources/Vaporiser/Vaporiser.swift:62-71 | A successful registration stores the mock and replies 200 with an empty JSON body. A failure passes on the router's error and stores nothing. The call succeeds exactly when the body is present and decodes. |

## Left out

- Application lifecycle (`app`, `Environment.detect`, `start`, `stop`): server plumbing with no matching logic.
- Route registration in `configure`, including the 1 MB body limit: Vapor routing. `respond` and the `setMock` handler are modelled directly. Only GET, POST and DELETE requests reach `respond` on a real server.
- JSON decoding of `MockData` and its `Codable` formats: foreign library behaviour. The decoder is the parameter `decode`.
- `URLComponents` query parsing and Vapor's URI parsing: the parsed query items and the path string are inputs.
- `Http.Segments`: Vapor's `:name` parameter and `**` catch-all segments are kept as literals. Both sides of a match go through the same function and only `*` is treated specially, so this encoding gives the same match results.
- The logging `print` calls and the `log` helper: they have no effect on results.
- The HTTP version (`.http1_1`) of the `setMock` reply and the reason phrase of a status: not modelled. A status is its code; for the range of valid codes see the `Server.Render` line below.
- `MockServerError.missingStub`: declared but never raised.
- The status that Vapor's error handling gives to an error thrown from `setMock`: decided outside this code.
- `StringMatches.PathMatches`, `StringMatches.FirstNamed`, `StringMatches.QueryMatches` and `Routing.RouteTables.Stored`: strings are compared as sequences of Unicode scalars. Swift's `String` equality uses canonical equivalence, and `split(separator:)` works on grapheme clusters. The model is exact only for text in one normal form (for example NFC, or ASCII). For instance, two canonically equivalent paths replace each other in a Swift dictionary, but are two keys in the model.
- Thread safety: the router is unsynchronised shared state, and the code has no concurrency logic.
- `Server.Vaporiser.Respond`: states only that a miss gives 404. The converse does not hold, because a mock may itself be configured with status 404 and no body.
- `Server.Render`: the status is built with SwiftNIO's `HTTPResponseStatus(statusCode:)`, which converts a code it does not list to `UInt`. A negative `returnCode` therefore traps and crashes the real server inside `respond`, while the model renders it unchanged. `Server.RegisteredMockIsServed` and `Server.Vaporiser.Respond` inherit this difference. SwiftNIO is not part of this model.
- Swift `Int` is 64 bits wide, and the model's return code is an unbounded `int`. No arithmetic is done on it.
- The SwiftUI example app, the XCTest harness and the package manifest: not part of the engine. They serve only as scenario evidence.
