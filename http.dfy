/**
 * The parts of Foundation, Vapor and SwiftNIO that the matching engine relies on,
 * reduced to the values it reads: optional values, byte payloads, path components,
 * query items, request methods, parsed URLs, requests and responses.
 */
module Http {

  datatype Option<+T> = None | Some(value: T) {
    /** Swift's `optional ?? default` */
    function GetOr(default: T): T {
      match this
      case Some(v) => v
      case None => default
    }
  }

  /** A value, or the error a throwing call raised instead */
  datatype Result<+T, +E> = Success(value: T) | Failure(error: E)

  newtype byte = b: int | 0 <= b < 256

  /** Foundation's `Data` */
  type Bytes = seq<byte>

  /**
   * Vapor's `PathComponent`. `Anything` is the single-segment wildcard `*`; every other
   * segment is a `Literal`.
   */
  datatype PathComponent = Literal(text: string) | Anything

  /** Foundation's `URLQueryItem`: a name and an optional value (`?flag` has no value) */
  datatype QueryItem = QueryItem(name: string, value: Option<string>)

  /** SwiftNIO's `HTTPMethod`, identified by its `rawValue` ("GET", "PATCH", "OPTIONS", ...) */
  datatype HttpMethod = HttpMethod(rawValue: string)

  /**
   * Vapor's `URI` as the matching engine reads it: `path` is `url.path`, and `query` is
   * `URLComponents(string: url.string)?.queryItems`, which is `None` when the URL string does
   * not parse or carries no query.
   */
  datatype Url = Url(path: string, query: Option<seq<QueryItem>>)

  /** An incoming request: its method, its URL and its body bytes, if it has a body */
  datatype Request = Request(verb: HttpMethod, url: Url, body: Option<Bytes>)

  /** An outgoing response: status code, header pairs and body bytes */
  datatype Response = Response(status: int, headers: seq<(string, string)>, body: Bytes)

  const NotFound := 404
  const Ok := 200
  const JsonHeaders: seq<(string, string)> := [("Content-Type", "application/json")]

  /**
   * Vapor's `String.pathComponents`: the path is split at '/', empty pieces are dropped,
   * and a piece "*" becomes the wildcard.
   */
  function Segments(path: string): (r: seq<PathComponent>)
    ensures forall i :: 0 <= i < |r| ==>
      r[i] == Anything || (r[i].text != "" && r[i].text != "*" && '/' !in r[i].text)
  {
    var pieces := Pieces(path, "");
    seq(|pieces|, i requires 0 <= i < |pieces| => Component(pieces[i]))
  }

  /** The non-empty '/'-free pieces of `s`, where `current` is the piece read so far */
  function Pieces(s: string, current: string): (r: seq<string>)
    requires '/' !in current
    ensures forall i :: 0 <= i < |r| ==> r[i] != "" && '/' !in r[i]
    decreases |s|
  {
    if s == [] then
      (if current == "" then [] else [current])
    else if s[0] == '/' then
      (if current == "" then [] else [current]) + Pieces(s[1..], "")
    else
      Pieces(s[1..], current + [s[0]])
  }

  /** A leading '/' does not change the segments: "facts/random" and "/facts/random" agree */
  lemma LeadingSlashIgnored(path: string)
    ensures Segments("/" + path) == Segments(path)
  {
    var s := "/" + path;
    assert s[0] == '/' && s[1..] == path;
    assert Pieces(s, "") == Pieces(path, "");
  }

  /** One piece of a split path: "*" is the wildcard, anything else a literal */
  function Component(piece: string): PathComponent {
    if piece == "*" then Anything else Literal(piece)
  }

  /** The text a segment stands for: the wildcard is written "*" */
  function Text(c: PathComponent): string {
    match c
    case Anything => "*"
    case Literal(text) => text
  }

  /** The segments' texts, written one after another */
  function Spelling(cs: seq<PathComponent>): string {
    if cs == [] then "" else Text(cs[0]) + Spelling(cs[1..])
  }

  /** The pieces, written one after another */
  function Concat(pieces: seq<string>): string {
    if pieces == [] then "" else pieces[0] + Concat(pieces[1..])
  }

  /** `s` with every '/' removed */
  function WithoutSlashes(s: string): string {
    if s == [] then "" else (if s[0] == '/' then "" else [s[0]]) + WithoutSlashes(s[1..])
  }

  /**
   * The segments keep every character of the path but the separators, in order: their texts
   * written one after another are the path with every '/' removed.
   */
  lemma SegmentsSpellPath(path: string)
    ensures Spelling(Segments(path)) == WithoutSlashes(path)
  {
    var pieces := Pieces(path, "");
    PiecesSpellPath(path, "");
    ComponentsSpellPieces(pieces);
  }

  lemma {:induction false} PiecesSpellPath(s: string, current: string)
    requires '/' !in current
    ensures Concat(Pieces(s, current)) == current + WithoutSlashes(s)
    decreases |s|
  {
    if s == [] {
      assert current + WithoutSlashes(s) == current;
    } else if s[0] == '/' {
      var head := if current == "" then [] else [current];
      PiecesSpellPath(s[1..], "");
      ConcatAppend(head, Pieces(s[1..], ""));
    } else {
      PiecesSpellPath(s[1..], current + [s[0]]);
      assert current + [s[0]] + WithoutSlashes(s[1..]) == current + ([s[0]] + WithoutSlashes(s[1..]));
    }
  }

  lemma {:induction false} ConcatAppend(a: seq<string>, b: seq<string>)
    ensures Concat(a + b) == Concat(a) + Concat(b)
  {
    if a == [] {
      assert a + b == b;
    } else {
      assert (a + b)[0] == a[0];
      assert (a + b)[1..] == a[1..] + b;
      ConcatAppend(a[1..], b);
    }
  }

  lemma {:induction false} ComponentsSpellPieces(pieces: seq<string>)
    ensures Spelling(seq(|pieces|, i requires 0 <= i < |pieces| => Component(pieces[i]))) == Concat(pieces)
  {
    var cs := seq(|pieces|, i requires 0 <= i < |pieces| => Component(pieces[i]));
    if pieces != [] {
      var rest := seq(|pieces| - 1, i requires 0 <= i < |pieces| - 1 => Component(pieces[1..][i]));
      assert cs[1..] == rest;
      assert Text(cs[0]) == pieces[0];
      ComponentsSpellPieces(pieces[1..]);
    }
  }

  /** Empty pieces vanish: "a//b" has two segments */
  lemma EmptyPiecesDropped()
    ensures Segments("a//b") == [Literal("a"), Literal("b")]
  {
    assert "b"[1..] == "" && "" + ['b'] == "b";
    assert "a//b"[1..] == "//b" && "" + ['a'] == "a";
    assert "//b"[1..] == "/b" && "/b"[1..] == "b";
    assert Pieces("b", "") == Pieces("", "b") == ["b"];
    assert Pieces("/b", "") == Pieces("b", "");
    assert Pieces("//b", "a") == ["a"] + Pieces("/b", "");
    var pieces := Pieces("a//b", "");
    assert pieces == Pieces("//b", "a") == ["a", "b"];
  }

  /** A "*" piece is the wildcard, and leading and trailing '/' add no segment */
  lemma StarPieceIsWildcard()
    ensures Segments("/*/x/") == [Anything, Literal("x")]
  {
    assert "x/"[1..] == "/" && "" + ['x'] == "x";
    assert "*/x/"[1..] == "/x/" && "" + ['*'] == "*";
    assert "/x/"[1..] == "x/" && "/*/x/"[1..] == "*/x/" && "/"[1..] == "";
    assert Pieces("/", "x") == ["x"] + Pieces("", "") == ["x"];
    assert Pieces("x/", "") == Pieces("/", "x");
    assert Pieces("/x/", "*") == ["*"] + Pieces("x/", "");
    assert Pieces("*/x/", "") == Pieces("/x/", "*") == ["*", "x"];
    var pieces := Pieces("/*/x/", "");
    assert pieces == Pieces("*/x/", "");
  }

  /** `keys` lists every key of `d` exactly once, in some order */
  ghost predicate IsIterationOrder<V>(keys: seq<string>, d: map<string, V>) {
    && (forall k :: k in keys <==> k in d)
    && (forall i, j :: 0 <= i < j < |keys| ==> keys[i] != keys[j])
  }

  /**
   * Swift's `Dictionary.keys`: every key once, in an order the language leaves
   * unspecified (here each step picks any key not yet listed).
   */
  method KeysOf<V>(d: map<string, V>) returns (keys: seq<string>)
    ensures IsIterationOrder(keys, d)
  {
    keys := [];
    var remaining := d.Keys;
    while remaining != {}
      invariant remaining <= d.Keys
      invariant forall k :: k in keys <==> k in d.Keys - remaining
      invariant forall i, j :: 0 <= i < j < |keys| ==> keys[i] != keys[j]
      decreases remaining
    {
      var k :| k in remaining;
      assert k !in keys;
      assert forall i :: 0 <= i < |keys| ==> keys[i] != k;
      keys := keys + [k];
      remaining := remaining - {k};
    }
  }
}
