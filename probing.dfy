/**
 * The follow-up requests of the tool: the sweep of common API paths
 * (`find_apis`) and the retrieval of a discovery file (`fetch_file`).
 */
module Probing {
  import opened Text
  import opened Lists
  import opened Http

  /** `COMMON_API_PATHS`, in the order they are requested. */
  const CommonApiPaths: seq<string> := [
    "/api", "/api/v1", "/api/v2", "/v1", "/v2",
    "/graphql", "/rest", "/swagger", "/openapi.json", "/api/status"
  ]

  /** The statuses `find_apis` reports. */
  const InformativeStatuses: seq<int> := [200, 401, 403]

  /** One reported endpoint: the path requested and the status it answered with. */
  datatype Endpoint = Endpoint(path: string, status: int)

  /** The URL requested for a path: `base_url.rstrip("/") + path`. */
  function ProbeUrl(baseUrl: string, path: string): string
  {
    TrimTrailing(baseUrl, '/') + path
  }

  /** What one path contributes: its endpoint when the request succeeds with an informative status. */
  function ProbeOutcome(fetch: Transport, baseUrl: string, path: string): seq<Endpoint>
  {
    match fetch(ProbeUrl(baseUrl, path))
    case Failed(_) => []
    case Received(r) => if r.status in InformativeStatuses then [Endpoint(path, r.status)] else []
  }

  /** The endpoints found by requesting `paths` in order. */
  function Sweep(fetch: Transport, baseUrl: string, paths: seq<string>): seq<Endpoint>
  {
    if paths == [] then []
    else Sweep(fetch, baseUrl, paths[..|paths| - 1]) + ProbeOutcome(fetch, baseUrl, paths[|paths| - 1])
  }

  function PathsOf(found: seq<Endpoint>): seq<string>
  {
    seq(|found|, i requires 0 <= i < |found| => found[i].path)
  }

  /**
   * `find_apis`: every common path is requested in turn; a response with an
   * informative status is recorded, any other status and any failed request
   * are skipped and the sweep goes on.
   */
  method FindApis(fetch: Transport, baseUrl: string) returns (found: seq<Endpoint>)
    ensures found == Sweep(fetch, baseUrl, CommonApiPaths)
    ensures |found| <= |CommonApiPaths|
    ensures forall e :: e in found ==> e.status in InformativeStatuses
  {
    found := [];
    for i := 0 to |CommonApiPaths|
      invariant found == Sweep(fetch, baseUrl, CommonApiPaths[..i])
    {
      var path := CommonApiPaths[i];
      var outcome := fetch(TrimTrailing(baseUrl, '/') + path);
      match outcome {
        case Failed(_) =>
        case Received(r) =>
          if r.status in [200, 401, 403] {
            found := found + [Endpoint(path, r.status)];
          }
      }
      assert CommonApiPaths[..i + 1][..i] == CommonApiPaths[..i];
    }
    assert CommonApiPaths[..|CommonApiPaths|] == CommonApiPaths;
    SweepOrder(fetch, baseUrl, CommonApiPaths);
    forall e | e in found
      ensures e.status in InformativeStatuses
    {
      SweepMember(fetch, baseUrl, CommonApiPaths, e);
    }
  }

  /**
   * An endpoint is reported exactly when its path is among those requested and
   * the request for it succeeded with that informative status; failures and other
   * statuses on the remaining paths do not matter.
   */
  lemma {:induction false} SweepMember(fetch: Transport, baseUrl: string, paths: seq<string>, e: Endpoint)
    ensures e in Sweep(fetch, baseUrl, paths) <==>
      e.path in paths && e.status in InformativeStatuses &&
      fetch(ProbeUrl(baseUrl, e.path)).Received? &&
      fetch(ProbeUrl(baseUrl, e.path)).response.status == e.status
  {
    if paths != [] {
      var init := paths[..|paths| - 1];
      SweepMember(fetch, baseUrl, init, e);
      assert paths == init + [paths[|paths| - 1]];
    }
  }

  /** The paths reported keep the order of the requests, so there are at most as many as requested. */
  lemma {:induction false} SweepOrder(fetch: Transport, baseUrl: string, paths: seq<string>)
    ensures IsSubsequence(PathsOf(Sweep(fetch, baseUrl, paths)), paths)
    ensures |Sweep(fetch, baseUrl, paths)| <= |paths|
  {
    if paths != [] {
      var n := |paths| - 1;
      var init := Sweep(fetch, baseUrl, paths[..n]);
      var last := ProbeOutcome(fetch, baseUrl, paths[n]);
      SweepOrder(fetch, baseUrl, paths[..n]);
      if last == [] {
        assert Sweep(fetch, baseUrl, paths) == init;
      } else {
        var found := init + last;
        assert PathsOf(found)[..|init|] == PathsOf(init);
        assert PathsOf(found)[|found| - 1] == paths[n];
      }
      SubsequenceLength(PathsOf(Sweep(fetch, baseUrl, paths)), paths);
    }
  }

  /**
   * The join of base and path: trailing '/' of the base are dropped, so the
   * path's leading '/' is never doubled, and a base given with or without a
   * trailing '/' requests the same URL.
   */
  lemma ProbeUrlJoin(baseUrl: string, path: string)
    requires path != [] && path[0] == '/'
    ensures var u, n := ProbeUrl(baseUrl, path), |TrimTrailing(baseUrl, '/')|;
      n <= |baseUrl| && u[..n] == baseUrl[..n] && u[n..] == path &&
      (n > 0 ==> u[n - 1] != '/') &&
      (forall i :: n <= i < |baseUrl| ==> baseUrl[i] == '/')
    ensures ProbeUrl(baseUrl + "/", path) == ProbeUrl(baseUrl, path)
  {
    assert (baseUrl + "/")[..|baseUrl|] == baseUrl;
  }

  /** Only the first path answered: the sweep reports that path alone. */
  lemma {:induction false} SweepOnlyFirst(fetch: Transport, baseUrl: string, paths: seq<string>)
    requires paths != []
    requires forall i :: 1 <= i < |paths| ==> ProbeOutcome(fetch, baseUrl, paths[i]) == []
    ensures Sweep(fetch, baseUrl, paths) == ProbeOutcome(fetch, baseUrl, paths[0])
  {
    if |paths| > 1 {
      var init := paths[..|paths| - 1];
      SweepOnlyFirst(fetch, baseUrl, init);
    }
  }

  /**
   * "/api" answers 401, "/graphql" answers 500 and every other request fails:
   * only ("/api", 401) is reported.
   */
  lemma SweepScenario(fetch: Transport, baseUrl: string)
    requires fetch(ProbeUrl(baseUrl, "/api")) == Received(Response(401, [], ""))
    requires fetch(ProbeUrl(baseUrl, "/graphql")) == Received(Response(500, [], ""))
    requires forall p :: p in CommonApiPaths && p != "/api" && p != "/graphql" ==>
      fetch(ProbeUrl(baseUrl, p)).Failed?
    ensures Sweep(fetch, baseUrl, CommonApiPaths) == [Endpoint("/api", 401)]
  {
    forall i | 1 <= i < |CommonApiPaths|
      ensures ProbeOutcome(fetch, baseUrl, CommonApiPaths[i]) == []
    {
      assert CommonApiPaths[i] != "/api";
    }
    SweepOnlyFirst(fetch, baseUrl, CommonApiPaths);
  }

  /** What `fetch_file` returns for the outcome of its one request. */
  function FileContent(outcome: Fetched): Option<string>
  {
    if outcome.Received? && outcome.response.status == 200 then Some(outcome.response.body) else None
  }

  /**
   * `fetch_file`: the body of the resource resolved against the base URL when the
   * request succeeds with status 200; nothing on any other status or on failure.
   * `resolve` stands for `urljoin`.
   */
  method FetchFile(fetch: Transport, resolve: (string, string) -> string, baseUrl: string, name: string)
    returns (content: Option<string>)
    ensures content == FileContent(fetch(resolve(baseUrl, name)))
    ensures content.Some? <==>
      fetch(resolve(baseUrl, name)).Received? && fetch(resolve(baseUrl, name)).response.status == 200
    ensures content.Some? ==> content.value == fetch(resolve(baseUrl, name)).response.body
  {
    var outcome := fetch(resolve(baseUrl, name));
    match outcome
    case Failed(_) =>
      content := None;
    case Received(r) =>
      if r.status == 200 {
        content := Some(r.body);
      } else {
        content := None;
      }
  }
}
