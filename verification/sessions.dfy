/** The process-wide session map that makes a piece of HTML reachable by URL
    for the performance tool, and the GET handler that serves it. */
module Sessions {
  import opened Wrappers

  type SessionId = string

  /** The global map. `Unset` is the state before the first audit assigns
      the global; afterwards it is a table from session id to HTML. */
  datatype Registry = Unset | Table(entries: map<SessionId, string>)

  /** The id-to-HTML mapping a registry holds (none while unset). */
  function Entries(r: Registry): map<SessionId, string> {
    if r.Table? then r.entries else map[]
  }

  /** No entry is stored under `id` yet: what a fresh random id gives. */
  predicate Fresh(r: Registry, id: SessionId) {
    id !in Entries(r)
  }

  /** Every stored page is non-empty, which publishing guarantees. */
  predicate Valid(r: Registry) {
    forall id :: id in Entries(r) ==> Entries(r)[id] != ""
  }

  /** The error publishing raises for a falsy HTML text. */
  const EmptyHtmlError: string := "Provide htmlText"

  /** Publish `html` under `id`: reject empty HTML before touching the map,
      otherwise create the map if needed and store the entry. */
  function Publish(r: Registry, id: SessionId, html: string): (res: Result<Registry, string>)
    ensures res.Failure? <==> html == ""
    ensures res.Failure? ==> res.error == EmptyHtmlError
    ensures res.Success? ==> res.value.Table?
    ensures res.Success? ==> id in Entries(res.value) && Entries(res.value)[id] == html
    ensures res.Success? ==> forall k :: k != id ==> (k in Entries(res.value) <==> k in Entries(r))
    ensures res.Success? ==> forall k :: k != id && k in Entries(r) ==> Entries(res.value)[k] == Entries(r)[k]
  {
    if html == "" then Failure(EmptyHtmlError)
    else Success(Table(Entries(r)[id := html]))
  }

  /** What the GET handler answers for a session id. */
  datatype Resolution =
    | Found(html: string)  // 200 with the HTML as text/html
    | NotFound             // 404 "Session not found"
    | ServerError          // the lookup itself threw: the global was never assigned

  /** Look `id` up; a missing entry and an empty one both give not-found. */
  function Resolve(r: Registry, id: SessionId): (res: Resolution)
    ensures res.ServerError? <==> r.Unset?
    ensures res.Found? <==> id in Entries(r) && Entries(r)[id] != ""
    ensures res.Found? ==> res.html == Entries(r)[id]
  {
    match r
    case Unset => ServerError
    case Table(m) => if id in m && m[id] != "" then Found(m[id]) else NotFound
  }

  /** Delete the entry for `id`; on an unset global the optional chaining
      makes this a no-op. */
  function Revoke(r: Registry, id: SessionId): (res: Registry)
    ensures res.Unset? <==> r.Unset?
    ensures id !in Entries(res)
    ensures forall k :: k != id ==> (k in Entries(res) <==> k in Entries(r))
    ensures forall k :: k != id && k in Entries(res) ==> Entries(res)[k] == Entries(r)[k]
  {
    match r
    case Unset => Unset
    case Table(m) => Table(m - {id})
  }

  /** The route the GET handler is mounted on. */
  const SessionRoute: string := "/__lighthouse-session/"

  /** The path of the URL handed to the performance tool for `id`. */
  function SessionPath(id: SessionId): (p: string)
    ensures |p| == |SessionRoute| + |id|
    ensures p[..|SessionRoute|] == SessionRoute && p[|SessionRoute|..] == id
  {
    SessionRoute + id
  }

  /** The full loopback URL audited for `id` on the server's `port`. */
  function AuditUrl(port: string, id: SessionId): (u: string)
    ensures |SessionPath(id)| <= |u|
    ensures u[|u| - |SessionPath(id)|..] == SessionPath(id)
  {
    "http://localhost:" + port + SessionPath(id)
  }

  /** The `:sessionId` parameter the router extracts from a request path: the
      non-empty, slash-free remainder after the route prefix. */
  function RouteParam(path: string): (id: Option<SessionId>)
    ensures id.Some? ==> SessionPath(id.value) == path
    ensures id.Some? ==> id.value != "" && '/' !in id.value
  {
    if |SessionRoute| < |path| && path[..|SessionRoute|] == SessionRoute && '/' !in path[|SessionRoute|..]
    then
      assert path == SessionRoute + path[|SessionRoute|..];
      Some(path[|SessionRoute|..])
    else None
  }

  /** The path built for a slash-free id routes back to that same id. */
  lemma RouteRoundTrip(id: SessionId)
    requires id != "" && '/' !in id
    ensures RouteParam(SessionPath(id)) == Some(id)
  {
    var p := SessionPath(id);
    assert p[|SessionRoute|..] == id;
  }

  /** Publishing non-empty HTML under a fresh id makes it resolvable. */
  lemma PublishThenResolve(r: Registry, id: SessionId, html: string)
    requires Fresh(r, id) && html != ""
    ensures Publish(r, id, html).Success?
    ensures Resolve(Publish(r, id, html).value, id) == Found(html)
  {
  }

  /** Publishing leaves the answer for every other id as it was, except that
      an unset global now exists and answers not-found instead of failing. */
  lemma PublishFrame(r: Registry, id: SessionId, html: string, other: SessionId)
    requires other != id && html != ""
    ensures Resolve(Publish(r, id, html).value, other)
         == (if r.Unset? then NotFound else Resolve(r, other))
  {
  }

  /** Publishing empty HTML fails and the map is never touched. */
  lemma PublishEmptyRejected(r: Registry, id: SessionId)
    ensures Publish(r, id, "") == Failure(EmptyHtmlError)
  {
  }

  /** After revoke the id is no longer served. */
  lemma RevokeThenResolve(r: Registry, id: SessionId)
    ensures Resolve(Revoke(r, id), id) == (if r.Unset? then ServerError else NotFound)
  {
  }

  /** Publish followed by revoke under a fresh id restores the mapping. */
  lemma PublishRevokeRoundTrip(r: Registry, id: SessionId, html: string)
    requires Fresh(r, id) && html != ""
    ensures Publish(r, id, html).Success?
    ensures Entries(Revoke(Publish(r, id, html).value, id)) == Entries(r)
  {
    var p := Publish(r, id, html).value;
    assert Entries(Revoke(p, id)) == Entries(p) - {id};
  }

  /** Publish and revoke keep every stored page non-empty, so not-found is
      answered only for ids that have no entry. */
  lemma ValidPreserved(r: Registry, id: SessionId, html: string)
    requires Valid(r)
    ensures Publish(r, id, html).Success? ==> Valid(Publish(r, id, html).value)
    ensures Valid(Revoke(r, id))
  {
  }

  /** On a valid registry, not-found means exactly that the id is unknown. */
  lemma ValidNotFound(r: Registry, id: SessionId)
    requires Valid(r) && r.Table?
    ensures Resolve(r, id) == NotFound <==> id !in Entries(r)
  {
  }
}
