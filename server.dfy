/** The movie proxy of server/server.go: the two upstream URL builders, the
    classification of the upstream call (newRequest) and the mapping of its
    error to a reply (errorHandler). The HTTP library is replaced by an
    abstract upstream outcome and a log of what is written to the caller. */
module Server {
  import opened Wrappers
  import opened Sequences
  import Text

  newtype byte = x: int | 0 <= x < 256
  type Bytes = seq<byte>

  // ---------------------------------------------------------------------------
  // Routes and configuration
  // ---------------------------------------------------------------------------

  /** The path of the discovery route; the single-movie route adds one segment. */
  const PathPrefix: string := "/v1/movies"
  const MovieRoute: string := PathPrefix + "/{movie_id}"

  const StatusBadRequest: int := 400
  const StatusUnauthorized: int := 401
  const StatusNotFound: int := 404
  const StatusInternalServerError: int := 500

  /** The two values of the `keys` package: the upstream base path
      (PATH_API_TMD) and the API key injected into every upstream call. */
  datatype Keys = Keys(pathApiTmd: string, apiKey: string)

  /** What a handler reads of the inbound request: the decoded path and the
      parsed query, each name with the values given for it. */
  datatype Request = Request(path: string, query: map<string, seq<string>>)

  // ---------------------------------------------------------------------------
  // The upstream call and what is written back
  // ---------------------------------------------------------------------------

  /** How the forwarded call ends: http.NewRequest fails, http.DefaultClient.Do
      fails, or a response arrives whose body can (Some) or cannot (None) be
      read to the end. */
  datatype Upstream =
    | ConstructFail
    | TransportFail
    | Responded(status: int, body: Option<Bytes>)

  /** The errors a handler returns: the three wrapper types and any other
      error, which here is only the body-read error returned as it is. */
  datatype ProxyError = BadRequest | NotFound | NotAuthorized | ReadError

  /** One call on the http.ResponseWriter. */
  datatype Effect = WriteHeader(code: int) | WriteBody(data: Bytes)

  /** What a handler did: the writes it made and the error it returned (None
      for nil). */
  datatype Handled = Handled(writes: seq<Effect>, err: Option<ProxyError>)

  /** What errorHandler's wrapper did in all: every write on the
      ResponseWriter, and whether it ended in a panic. */
  datatype Exchange = Exchange(writes: seq<Effect>, panicked: bool)

  /** What the caller receives: nothing when the handler panicked (net/http
      recovers and drops the connection), otherwise a status and a body. */
  datatype Observed = Aborted | Reply(status: int, body: Bytes)

  predicate IsAscii(s: string)
  {
    forall i :: 0 <= i < |s| ==> s[i] as int < 128
  }

  /** The bytes of an ASCII string. */
  function AsciiBytes(s: string): Bytes
    requires IsAscii(s)
  {
    seq(|s|, i requires 0 <= i < |s| => s[i] as int as byte)
  }

  // ---------------------------------------------------------------------------
  // GetMovie: the single-movie URL
  // ---------------------------------------------------------------------------

  /** The id GetMovie forwards: it splits the path on "/" and keeps the element
      its loop visits last. */
  method MovieId(path: string) returns (id: string)
    ensures id == Text.LastSegment(path, '/')
    ensures '/' !in id
    ensures |id| <= |path| && path[|path| - |id|..] == id
    ensures |id| == |path| || path[|path| - |id| - 1] == '/'
  {
    var s := Text.Split(path, '/');
    id := "";
    for i := 0 to |s|
      invariant i > 0 ==> id == s[i - 1]
    {
      id := s[i];
    }
  }

  function MoviePrefix(k: Keys): string
  {
    k.pathApiTmd + "movie/"
  }

  function MovieSuffix(k: Keys): string
  {
    "?api_key=" + k.apiKey
  }

  /** The upstream URL for one movie: the fixed prefix, the id and the key
      suffix, with nothing else added, so cutting the fixed parts off gives
      the id back. */
  function MovieUrl(k: Keys, id: string): (u: string)
    ensures |u| == |MoviePrefix(k)| + |id| + |MovieSuffix(k)|
    ensures u[..|MoviePrefix(k)|] == MoviePrefix(k)
    ensures u[|MoviePrefix(k)|..|u| - |MovieSuffix(k)|] == id
    ensures u[|u| - |MovieSuffix(k)|..] == MovieSuffix(k)
  {
    var u := k.pathApiTmd + "movie/" + id + "?api_key=" + k.apiKey;
    assert u == MoviePrefix(k) + id + MovieSuffix(k);
    u
  }

  /** Different ids go to different upstream URLs. */
  lemma MovieUrlInjective(k: Keys, a: string, b: string)
    requires MovieUrl(k, a) == MovieUrl(k, b)
    ensures a == b
  {
    var u := MovieUrl(k, a);
    assert a == u[|MoviePrefix(k)|..|u| - |MovieSuffix(k)|] == b;
  }

  /** GET /v1/movies/42 forwards id "42"; a trailing "/" forwards the empty
      id; /v1/movies itself, were it routed here, would forward "movies". */
  lemma MovieIdExamples()
    ensures Text.LastSegment("/v1/movies/42", '/') == "42"
    ensures Text.LastSegment("/v1/movies/", '/') == ""
    ensures Text.LastSegment(PathPrefix, '/') == "movies"
  {
    var slash := ['/'];
    assert "/v1/movies/42" == PathPrefix + slash + "42";
    Text.LastSegmentAfter(PathPrefix, "42", '/');
    assert "/v1/movies/" == PathPrefix + slash + "";
    Text.LastSegmentAfter(PathPrefix, "", '/');
    assert PathPrefix == "/v1" + slash + "movies";
    Text.LastSegmentAfter("/v1", "movies", '/');
  }

  // ---------------------------------------------------------------------------
  // ListMoviesDiscover: the discovery URL
  // ---------------------------------------------------------------------------

  /** The discovery URL before any forwarded parameter: the base path, the
      discovery endpoint, and the API key as the last thing in it. */
  function DiscoverPrefix(k: Keys): (p: string)
    ensures |p| == |k.pathApiTmd| + |DiscoverEndpoint| + |k.apiKey|
    ensures p[..|k.pathApiTmd|] == k.pathApiTmd
    ensures p[|k.pathApiTmd|..|p| - |k.apiKey|] == DiscoverEndpoint
    ensures p[|p| - |k.apiKey|..] == k.apiKey
  {
    var p := k.pathApiTmd + "discover/movie?" + "api_key=" + k.apiKey;
    assert p == k.pathApiTmd + DiscoverEndpoint + k.apiKey;
    p
  }

  const DiscoverEndpoint: string := "discover/movie?api_key="

  /** url.Values as r.URL.Query() builds them: every name has a first value. */
  predicate HasFirstValues(q: map<string, seq<string>>)
  {
    forall n :: n in q ==> |q[n]| > 0
  }

  /** `order` is one order in which `range` may visit the names of a map:
      each name exactly once. */
  ghost predicate IsEnumeration(order: seq<string>, names: set<string>)
  {
    Distinct(order) && forall n :: n in order <==> n in names
  }

  /** The (name, first value) pairs forwarded, in the order visited: one per
      visited name, and no pair twice when no name is visited twice. */
  function Forwarded(q: map<string, seq<string>>, order: seq<string>): (pairs: seq<(string, string)>)
    requires forall i :: 0 <= i < |order| ==> order[i] in q && |q[order[i]]| > 0
    ensures |pairs| == |order|
    ensures Distinct(order) ==> Distinct(pairs)
  {
    seq(|order|, i requires 0 <= i < |order| => (order[i], q[order[i]][0]))
  }

  /** The text appended for one forwarded parameter, not escaped: "&", the
      name, "=" and the value, and nothing else. */
  function Fragment(p: (string, string)): (f: string)
    ensures |f| == |p.0| + |p.1| + 2 && f[0] == '&'
  {
    "&" + p.0 + "=" + p.1
  }

  /** Name and value can be cut back out of a fragment at the positions the
      name's length gives. */
  lemma FragmentParts(p: (string, string))
    ensures var f := Fragment(p);
      && f[1..|p.0| + 1] == p.0
      && f[|p.0| + 1] == '='
      && f[|p.0| + 2..] == p.1
  {
    assert Fragment(p) == ['&'] + p.0 + ['='] + p.1;
  }

  /** The fragments of the pairs, one after the other: nothing when no
      parameter is forwarded, otherwise text that starts with "&" and has at
      least the two delimiters of every pair. */
  function Render(pairs: seq<(string, string)>): (r: string)
    ensures r == "" <==> pairs == []
    ensures pairs != [] ==> r[0] == '&'
    ensures |r| >= 2 * |pairs|
  {
    if pairs == [] then "" else Render(pairs[..|pairs| - 1]) + Fragment(pairs[|pairs| - 1])
  }

  /** The upstream URL ListMoviesDiscover builds when `range` visits the query
      names in `order`. */
  method DiscoverUrl(k: Keys, q: map<string, seq<string>>, order: seq<string>) returns (url: string)
    requires HasFirstValues(q) && IsEnumeration(order, q.Keys)
    ensures url == DiscoverPrefix(k) + Render(Forwarded(q, order))
    ensures |DiscoverPrefix(k)| <= |url| && url[..|DiscoverPrefix(k)|] == DiscoverPrefix(k)
  {
    url := k.pathApiTmd + "discover/movie?" + "api_key=" + k.apiKey;
    for i := 0 to |order|
      invariant url == DiscoverPrefix(k) + Render(Forwarded(q, order[..i]))
    {
      var n := order[i];
      var pairs := Forwarded(q, order[..i + 1]);
      assert pairs[..i] == Forwarded(q, order[..i]) && pairs[i] == (n, q[n][0]);
      url := url + "&" + n + "=" + q[n][0];
    }
    assert order[..|order|] == order;
  }

  /** Exactly one pair per query name, carrying that name's first value;
      values after the first are never forwarded. */
  lemma ForwardedOnePerName(q: map<string, seq<string>>, order: seq<string>)
    requires HasFirstValues(q) && IsEnumeration(order, q.Keys)
    ensures |Forwarded(q, order)| == |q|
    ensures forall n, v :: (n, v) in Forwarded(q, order) <==> n in q && v == q[n][0]
  {
    DistinctCardinality(order);
    assert Elements(order) == q.Keys;
    var f := Forwarded(q, order);
    forall n, v | n in q && v == q[n][0] ensures (n, v) in f {
      var i :| 0 <= i < |order| && order[i] == n;
      assert f[i] == (n, v);
    }
  }

  /** Whatever order the map is iterated in, the same pairs are forwarded. */
  lemma ForwardedOrderIrrelevant(q: map<string, seq<string>>, o1: seq<string>, o2: seq<string>)
    requires HasFirstValues(q) && IsEnumeration(o1, q.Keys) && IsEnumeration(o2, q.Keys)
    ensures multiset(Forwarded(q, o1)) == multiset(Forwarded(q, o2))
  {
    ForwardedOnePerName(q, o1);
    ForwardedOnePerName(q, o2);
    SameElementsPermutation(Forwarded(q, o1), Forwarded(q, o2));
  }

  /** Render distributes over concatenation. */
  lemma {:induction false} RenderAppend(a: seq<(string, string)>, b: seq<(string, string)>)
    ensures Render(a + b) == Render(a) + Render(b)
    decreases |b|
  {
    if b == [] {
      assert a + b == a;
    } else {
      var init := b[..|b| - 1];
      assert (a + b)[..|a + b| - 1] == a + init;
      RenderAppend(a, init);
    }
  }

  /** The fragment of every pair lies, contiguous, in the rendering; `at` is
      where it starts. */
  lemma RenderHasFragment(pairs: seq<(string, string)>, i: nat) returns (at: nat)
    requires i < |pairs|
    ensures at + |Fragment(pairs[i])| <= |Render(pairs)|
    ensures Render(pairs)[at..at + |Fragment(pairs[i])|] == Fragment(pairs[i])
  {
    var before, after := pairs[..i], pairs[i + 1..];
    var frag := Fragment(pairs[i]);
    assert pairs == before + [pairs[i]] + after;
    RenderAppend(before + [pairs[i]], after);
    RenderAppend(before, [pairs[i]]);
    assert Render([pairs[i]]) == frag by {
      assert [pairs[i]][..0] == [];
    }
    assert Render(pairs) == Render(before) + frag + Render(after);
    at := |Render(before)|;
  }

  /** For every query name the discovery URL holds "&name=firstValue" as a
      contiguous piece; `at` is where it starts. */
  lemma DiscoverUrlHasParameter(k: Keys, q: map<string, seq<string>>, order: seq<string>, n: string)
    returns (at: nat)
    requires HasFirstValues(q) && IsEnumeration(order, q.Keys)
    requires n in q
    ensures var u := DiscoverPrefix(k) + Render(Forwarded(q, order));
      var frag := Fragment((n, q[n][0]));
      at + |frag| <= |u| && u[at..at + |frag|] == frag
  {
    var f := Forwarded(q, order);
    var i :| 0 <= i < |order| && order[i] == n;
    assert f[i] == (n, q[n][0]);
    var j := RenderHasFragment(f, i);
    var frag := Fragment(f[i]);
    var prefix := DiscoverPrefix(k);
    at := |prefix| + j;
    assert (prefix + Render(f))[at..at + |frag|] == Render(f)[j..j + |frag|];
  }

  /** Two queries with the same names and the same first values give the same
      discovery URL. */
  lemma DiscoverUrlIgnoresLaterValues(q1: map<string, seq<string>>, q2: map<string, seq<string>>, order: seq<string>)
    requires HasFirstValues(q1) && HasFirstValues(q2) && q1.Keys == q2.Keys
    requires IsEnumeration(order, q1.Keys)
    requires forall n :: n in q1 ==> q1[n][0] == q2[n][0]
    ensures Render(Forwarded(q1, order)) == Render(Forwarded(q2, order))
  {
    assert Forwarded(q1, order) == Forwarded(q2, order);
  }

  // ---------------------------------------------------------------------------
  // newRequest: classifying the upstream call
  // ---------------------------------------------------------------------------

  /** newRequest: an error is returned before anything is written; only a
      readable response with a status other than 401 is written back, status
      first and then the body, both unchanged. */
  function NewRequest(u: Upstream): (h: Handled)
    ensures h.err.Some? ==> h.writes == []
    ensures h.err == Some(BadRequest) <==> u.ConstructFail?
    ensures h.err == Some(NotFound) <==> u.TransportFail?
    ensures h.err == Some(NotAuthorized) <==> u.Responded? && u.status == StatusUnauthorized
    ensures h.err == Some(ReadError) <==> u.Responded? && u.status != StatusUnauthorized && u.body.None?
    ensures h.err.None? <==> u.Responded? && u.status != StatusUnauthorized && u.body.Some?
    ensures h.err.None? ==> h.writes == [WriteHeader(u.status), WriteBody(u.body.value)]
  {
    match u
    case ConstructFail => Handled([], Some(BadRequest))
    case TransportFail => Handled([], Some(NotFound))
    case Responded(status, body) =>
      if status == StatusUnauthorized then Handled([], Some(NotAuthorized))
      else if body.None? then Handled([], Some(ReadError))
      else Handled([WriteHeader(status), WriteBody(body.value)], None)
  }

  // ---------------------------------------------------------------------------
  // errorHandler: from the returned error to a reply
  // ---------------------------------------------------------------------------

  /** The status the type switch selects for each error. */
  function ErrorStatus(e: ProxyError): (status: int)
    ensures 400 <= status < 600
    ensures status == StatusInternalServerError <==> e == ReadError
  {
    match e
    case BadRequest => StatusBadRequest
    case NotFound => StatusNotFound
    case NotAuthorized => StatusUnauthorized
    case ReadError => StatusInternalServerError
  }

  /** The message written for each error; None where computing it panics:
      badRequest{} embeds a nil error, so err.Error() dereferences nil. */
  function ErrorMessage(e: ProxyError): (msg: Option<string>)
    ensures msg.None? <==> e == BadRequest
    ensures msg.Some? ==> IsAscii(msg.value)
  {
    match e
    case BadRequest => None
    case NotFound => Some("Task not found")
    case NotAuthorized => Some("Invalid API key")
    case ReadError => Some("oops")
  }

  /** http.Error: the status, then the message and a newline. */
  function HttpError(msg: string, code: int): (writes: seq<Effect>)
    requires IsAscii(msg)
  {
    [WriteHeader(code), WriteBody(AsciiBytes(msg + "\n"))]
  }

  /** errorHandler's wrapper: it keeps what the handler wrote, adds nothing
      for a nil error, panics for badRequest, and otherwise adds one
      http.Error reply. */
  function ErrorHandler(h: Handled): (ex: Exchange)
    ensures |h.writes| <= |ex.writes| && ex.writes[..|h.writes|] == h.writes
    ensures ex.panicked <==> h.err == Some(BadRequest)
    ensures h.err.None? ==> ex.writes == h.writes
    ensures h.err.Some? && !ex.panicked ==>
      |ex.writes| == |h.writes| + 2 && ex.writes[|h.writes|] == WriteHeader(ErrorStatus(h.err.value))
  {
    match h.err
    case None => Exchange(h.writes, false)
    case Some(e) =>
      match ErrorMessage(e)
      case None => Exchange(h.writes, true)
      case Some(msg) => Exchange(h.writes + HttpError(msg, ErrorStatus(e)), false)
  }

  /** The status the caller sees: set by the first write, 200 when a body is
      written first or nothing at all; later WriteHeader calls are ignored. */
  function StatusOf(writes: seq<Effect>): int
  {
    if writes != [] && writes[0].WriteHeader? then writes[0].code else 200
  }

  /** The body the caller sees: every body write, in order. */
  function BodyOf(writes: seq<Effect>): Bytes
  {
    if writes == [] then []
    else (if writes[0].WriteBody? then writes[0].data else []) + BodyOf(writes[1..])
  }

  /** A header then a body: the caller sees that status and exactly that body. */
  lemma HeaderThenBody(code: int, b: Bytes)
    ensures StatusOf([WriteHeader(code), WriteBody(b)]) == code
    ensures BodyOf([WriteHeader(code), WriteBody(b)]) == b
  {
    var w := [WriteHeader(code), WriteBody(b)];
    assert w[1..][1..] == [];
    assert BodyOf(w[1..]) == b + BodyOf([]);
  }

  function Observe(ex: Exchange): Observed
  {
    if ex.panicked then Aborted else Reply(StatusOf(ex.writes), BodyOf(ex.writes))
  }

  /** The reply the code produces for each upstream outcome, as a table:
      404 "Task not found" when the upstream cannot be reached, 401
      "Invalid API key" for an upstream 401, 500 "oops" when the body cannot
      be read, every other response passed through, and no reply at all when
      the request cannot be built. */
  function ClientView(u: Upstream): Observed
  {
    match u
    case ConstructFail => Aborted
    case TransportFail => Reply(404, AsciiBytes("Task not found\n"))
    case Responded(status, body) =>
      if status == 401 then Reply(401, AsciiBytes("Invalid API key\n"))
      else if body.None? then Reply(500, AsciiBytes("oops\n"))
      else Reply(status, body.value)
  }

  /** For every upstream outcome, newRequest followed by errorHandler gives
      the caller exactly the reply of the table ClientView. */
  lemma ServeMatchesClientView(u: Upstream)
    ensures Observe(ErrorHandler(NewRequest(u))) == ClientView(u)
  {
    match u
    case ConstructFail =>
    case TransportFail =>
      assert "Task not found" + "\n" == "Task not found\n";
      HeaderThenBody(404, AsciiBytes("Task not found\n"));
    case Responded(status, body) =>
      if status == 401 {
        assert "Invalid API key" + "\n" == "Invalid API key\n";
        HeaderThenBody(401, AsciiBytes("Invalid API key\n"));
      } else if body.None? {
        assert "oops" + "\n" == "oops\n";
        HeaderThenBody(500, AsciiBytes("oops\n"));
      } else {
        HeaderThenBody(status, body.value);
      }
  }

  /** The caller sees 401 exactly when the upstream answered 401, and then
      never with the upstream's body. */
  lemma CallerSees401Iff(u: Upstream)
    ensures var o := Observe(ErrorHandler(NewRequest(u)));
      o.Reply? && o.status == 401 <==> u.Responded? && u.status == 401
    ensures u.Responded? && u.status == 401 ==>
      Observe(ErrorHandler(NewRequest(u))) == Reply(401, AsciiBytes("Invalid API key\n"))
  {
    ServeMatchesClientView(u);
  }

  /** Any readable upstream response other than 401, 4xx and 5xx included,
      reaches the caller unchanged: the status is written, then the body,
      and nothing else. */
  lemma PassThrough(status: int, body: Bytes)
    requires status != 401
    ensures ErrorHandler(NewRequest(Responded(status, Some(body)))) ==
      Exchange([WriteHeader(status), WriteBody(body)], false)
    ensures Observe(ErrorHandler(NewRequest(Responded(status, Some(body))))) == Reply(status, body)
  {
    ServeMatchesClientView(Responded(status, Some(body)));
  }

  // ---------------------------------------------------------------------------
  // The handlers, as registered behind errorHandler
  // ---------------------------------------------------------------------------

  /** GetMovie: forward to the movie URL of the path's last segment. The
      upstream is given as the outcome of a call to each URL. */
  method GetMovie(k: Keys, r: Request, upstream: string -> Upstream) returns (h: Handled)
    ensures h == NewRequest(upstream(MovieUrl(k, Text.LastSegment(r.path, '/'))))
  {
    var id := MovieId(r.path);
    var url := k.pathApiTmd + "movie/" + id + "?api_key=" + k.apiKey;
    h := NewRequest(upstream(url));
  }

  /** ListMoviesDiscover, with the query names visited in `order`. */
  method ListMoviesDiscover(k: Keys, r: Request, order: seq<string>, upstream: string -> Upstream)
    returns (h: Handled)
    requires HasFirstValues(r.query) && IsEnumeration(order, r.query.Keys)
    ensures h == NewRequest(upstream(DiscoverPrefix(k) + Render(Forwarded(r.query, order))))
  {
    var url := DiscoverUrl(k, r.query, order);
    h := NewRequest(upstream(url));
  }

  /** errorHandler(GetMovie), the handler of GET /v1/movies/{movie_id}. */
  method ServeMovie(k: Keys, r: Request, upstream: string -> Upstream) returns (ex: Exchange)
    ensures Observe(ex) == ClientView(upstream(MovieUrl(k, Text.LastSegment(r.path, '/'))))
  {
    var h := GetMovie(k, r, upstream);
    ex := ErrorHandler(h);
    ServeMatchesClientView(upstream(MovieUrl(k, Text.LastSegment(r.path, '/'))));
  }

  /** errorHandler(ListMoviesDiscover), the handler of GET /v1/movies. */
  method ServeDiscover(k: Keys, r: Request, order: seq<string>, upstream: string -> Upstream)
    returns (ex: Exchange)
    requires HasFirstValues(r.query) && IsEnumeration(order, r.query.Keys)
    ensures Observe(ex) == ClientView(upstream(DiscoverPrefix(k) + Render(Forwarded(r.query, order))))
  {
    var h := ListMoviesDiscover(k, r, order, upstream);
    ex := ErrorHandler(h);
    ServeMatchesClientView(upstream(DiscoverPrefix(k) + Render(Forwarded(r.query, order))));
  }
}
