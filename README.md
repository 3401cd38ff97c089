# Movies proxy — a Dafny model of its request forwarding

The repository is a thin HTTP proxy in front of a movie metadata API. It has
two routes: `GET /v1/movies` (discovery) and `GET /v1/movies/{movie_id}`
(one movie). Each handler builds an upstream URL that carries the
server-side API key. It calls the upstream, sorts the outcome into one of a
few errors, and either passes the upstream status and body through or writes
a fixed error reply. This project models that logic from `server/server.go`
and proves what it does.

- `text.dfy` (module `Text`): Go's `strings.Split` for a one-character
  separator, its inverse `Join`, and the last segment of a split.
  - `Split` is the unique cut of a string into separator-free pieces
    (`SplitJoin`, `JoinSplit`).
  - The last piece is the longest separator-free suffix (`LastSegment`).
- `server.dfy` (module `Server`):
  - `MovieId` models GetMovie's loop over the split path. It is a method
    proved against `Text.LastSegment`.
  - `MovieUrl` builds the single-movie URL.
  - `DiscoverUrl` models ListMoviesDiscover's `+=` loop over the query map. It
    is a method proved against `DiscoverPrefix` + `Render(Forwarded(...))`.
  - `NewRequest` models newRequest's classification.
  - `ErrorHandler` models errorHandler's wrapper.
  - `GetMovie`, `ListMoviesDiscover`, `ServeMovie` and `ServeDiscover` put
    these together.
- `sequences.dfy` (module `Sequences`): facts about sequences without repeats.
- `wrappers.dfy` (module `Wrappers`): `Option`.

How the HTTP library is replaced:

- The upstream call is an input, `Upstream`. Either `http.NewRequest` fails,
  or `http.DefaultClient.Do` fails, or a response arrives with a status and a
  body that can or cannot be read (`Option<Bytes>`).
- A handler gets the whole upstream as a function from URL to `Upstream`.
  Which URLs `net/url` refuses is therefore part of that function.
- The `http.ResponseWriter` is a log of `WriteHeader`/`WriteBody` effects.
- `Observe` turns the log into what the caller sees:
  - the first write fixes the status (200 when a body comes first);
  - the body is every body write, in order;
  - a panic means the caller gets no reply.
- Go's map iteration order is a parameter `order`. It lists every query name
  exactly once (`IsEnumeration`). What is forwarded is proved to be the same
  multiset of pairs for every order (`ForwardedOrderIrrelevant`).
- The `keys` package values are the fields of `Keys`.

Where the code differs from its own comments (server/server.go:30) or from
what a reader would expect, the model follows the code:

- **Construction failure.** The code returns `badRequest{}`, whose embedded
  error is nil. `err.Error()` in errorHandler (server/server.go:53)
  therefore dereferences nil and panics. No 400 reply is sent: net/http
  recovers and drops the connection.
  - `ErrorStatus` still says the type switch selects 400.
  - `ErrorMessage` and `ErrorHandler` model the panic.
  - `ClientView` says `Aborted`, not an empty 400.
- **Error bodies end in a newline.** `http.Error` writes the message with
  `Fprintln`. So the bodies are `"Task not found\n"`, `"Invalid API key\n"`
  and `"oops\n"`.
- **The body is not closed on the 401 path.** `defer res.Body.Close()` is
  registered only after the 401 check. The model does not claim that the
  body is closed on every exit path.

## Model

| member | source | states |
|---|---|---|
| `Text.Split` | server/server.go:105 | splitting on "/" always gives at least one piece, and no piece contains "/" |
| `Text.SplitJoin` | server/server.go:105 | joining the pieces of a split with the separator gives back the original path |
| `Text.JoinSplit` | server/server.go:105 | any cut of a string into separator-free pieces is the one Split returns |
| `Text.LastSegment` | server/server.go:104-108 | the last piece of the split is the longest "/"-free suffix: it ends the path, has no "/", and is the whole path or follows a "/" |
| `Text.LastSegmentAfter` | server/server.go:104-108 | whatever follows the last "/" is the last segment |
| `Server.MovieId` | server/server.go:104-108 | the loop leaves `id` equal to the last element of the split path, which ends the path, has no "/", and is the whole path or follows a "/" |
| `Server.MovieIdExamples` | server/server.go:104-108 | `/v1/movies/42` gives "42", a trailing "/" gives "", and `/v1/movies` itself would give "movies" |
| `Server.MovieUrl` | server/server.go:110 | the movie URL is exactly base + "movie/", then the id, then "?api_key=" + key, with nothing else; cutting off the fixed parts gives the id back |
| `Server.MovieUrlInjective` | server/server.go:110 | different ids give different upstream URLs |
| `Server.DiscoverPrefix` | server/server.go:93 | the discovery URL before any parameter is exactly the base path, then "discover/movie?api_key=", then the key, which ends it |
| `Server.Forwarded` | server/server.go:94-97 | one (name, first value) pair per visited name; when no name is visited twice, as in Go's range over a map, no pair occurs twice |
| `Server.Fragment` | server/server.go:96 | the text appended for one parameter starts with "&" and is exactly two characters longer than name and value together |
| `Server.FragmentParts` | server/server.go:96 | the name, "=" and the value sit at fixed positions after the "&", raw and unescaped, so both can be cut back out |
| `Server.Render` | server/server.go:95-97 | the appended text is empty exactly when no parameter is forwarded, otherwise starts with "&", and holds at least two characters per forwarded pair |
| `Server.DiscoverUrl` | server/server.go:93-97 | the loop builds the fixed prefix base + "discover/movie?api_key=" + key, followed by one "&name=value" fragment per visited pair, in visiting order; the URL always starts with the prefix |
| `Server.ForwardedOnePerName` | server/server.go:94-97 | exactly one pair is forwarded per query name, and it carries that name's first value |
| `Server.ForwardedOrderIrrelevant` | server/server.go:95-97 | every iteration order of the query map forwards the same multiset of (name, first value) pairs |
| `Server.RenderHasFragment` | server/server.go:96 | each forwarded pair's "&name=value" appears as one contiguous piece of the appended text |
| `Server.DiscoverUrlHasParameter` | server/server.go:93-97 | for every query name the discovery URL contains "&name=firstValue" contiguously |
| `Server.DiscoverUrlIgnoresLaterValues` | server/server.go:96 | values after the first for a name never change the URL |
| `Server.NewRequest` | server/server.go:67-89 | the classification is total and exclusive: construction failure is badRequest, transport failure is notFound, status 401 is notAuthorized, an unreadable body is the unclassified error, and every other status gives a nil error with status then body written unchanged; no error path writes anything |
| `Server.ErrorStatus` | server/server.go:51-61 | every status the type switch selects is a 4xx or 5xx error status, and 500 is selected exactly for the unclassified error; the 404 and 401 that reach the caller are stated by `ServeMatchesClientView` |
| `Server.ErrorMessage` | server/server.go:51-61 | there are fixed messages for notFound, notAuthorized and other errors; only badRequest has none, because its nil embedded error panics |
| `Server.ErrorHandler` | server/server.go:45-63 | the handler's writes are kept; a nil error adds nothing; badRequest and only badRequest panics; any other error adds one http.Error reply that starts with the status the switch selects |
| `Server.ServeMatchesClientView` | server/server.go:45-89 | for every upstream outcome, the caller sees the reply the code produces, as the table `ClientView` lists it: 404 "Task not found", 401 "Invalid API key", 500 "oops", a verbatim pass-through, or no reply when construction fails |
| `Server.CallerSees401Iff` | server/server.go:56-57 | the caller gets 401 if and only if the upstream answered 401, and then always with body "Invalid API key\n" and never the upstream body |
| `Server.PassThrough` | server/server.go:76-88 | any readable upstream status other than 401, 4xx and 5xx included, is written status first and then body, both unchanged, with nothing added |
| `Server.GetMovie` | server/server.go:103-113 | the single-movie handler classifies the upstream outcome for the movie URL of the path's last segment |
| `Server.ListMoviesDiscover` | server/server.go:92-100 | the discovery handler classifies the upstream outcome for the discovery URL built from the query |
| `Server.ServeMovie` | server/server.go:25 | errorHandler(GetMovie) gives the caller the `ClientView` reply for the upstream outcome of the movie URL |
| `Server.ServeDiscover` | server/server.go:24 | errorHandler(ListMoviesDiscover) gives the caller the `ClientView` reply for the upstream outcome of the discovery URL |

## Left out

- Router registration (server/server.go:17-28) is gorilla/mux dispatch.
  - Only the two route patterns are kept, as the constants `PathPrefix` and
    `MovieRoute`.
  - Method matching and the router's 404 for other paths are not modelled.
- The real HTTP calls (`http.NewRequest`, `http.DefaultClient.Do`,
  `ioutil.ReadAll`) are replaced by the `Upstream` input.
  - Which URLs `net/url` refuses is a property of the upstream function the
    handlers are given.
  - Timeouts, connection reuse and cancellation are not modelled.
- Response headers are not modelled: the Content-Type and
  X-Content-Type-Options headers that `http.Error` sets, and the ones Go
  infers.
- net/http's own checks on the status code are not modelled: invalid codes
  and 1xx informational codes. `StatusOf` takes the first `WriteHeader` as
  the final status.
- Logging of unclassified errors (server/server.go:59) is not modelled.
- Closing the upstream body (server/server.go:80) is not modelled.
- The concurrency of the host server is not modelled. There is no shared
  state between requests.
- The `keys` package is not part of this model. Its two values are the
  fields of `Keys`.
- Percent-encoding is not modelled.
  - The path and the query are taken as already decoded, as `r.URL.Path`
    and `r.URL.Query()` give them.
  - Forwarded names and values are appended raw, as the code does.
  - So the discovery URL is not parsed back. A name containing "&" or "="
    makes the fragments ambiguous as text. For that reason the
    "one fragment per name" properties are stated on the forwarded pairs.
- Strings are sequences of characters, while Go strings are bytes. Splitting
  on "/" agrees either way, because "/" never occurs inside a multi-byte
  UTF-8 character.
- Every query name is required to have a first value (`HasFirstValues`).
  This is how `r.URL.Query()` builds its map; an empty list would make
  `v[0]` panic.
- The badRequest panic is a flag in `Exchange`. The connection drop that
  net/http's recovery causes is summarised as `Aborted` in `Observe`.
