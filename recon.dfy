/**
 * The scan that `main` runs on one target URL, with its console output
 * replaced by a report value.
 */
module Recon {
  import opened Http
  import opened Onion
  import opened Fingerprint
  import opened Probing

  /** What a scan finds: either the target is offline, or every classifier's findings. */
  datatype Report =
    | Offline(v3Onion: bool, reason: string)
    | Online(
        v3Onion: bool,
        status: int,
        headers: seq<Header>,
        frameworks: seq<string>,
        backends: seq<string>,
        protections: seq<string>,
        endpoints: seq<Endpoint>,
        robots: Option<string>,
        sitemap: Option<string>)

  /**
   * `main` after its argument check: classify the host, request the base URL once
   * (`check_online`), stop when that request fails, and otherwise run the
   * classifiers on that one response and the follow-up requests.
   */
  method Scan(fetch: Transport, resolve: (string, string) -> string, baseUrl: string)
    returns (report: Report)
    ensures report.v3Onion == IsV3Onion(ExtractHost(baseUrl))
    ensures report.Offline? <==> fetch(baseUrl).Failed?
    ensures report.Offline? ==> report.reason == fetch(baseUrl).reason
    ensures report.Online? ==>
      var r := fetch(baseUrl).response;
      report.status == r.status && report.headers == r.headers &&
      report.frameworks == Frameworks(r.headers, r.body) &&
      report.backends == BackendLanguages(r.headers) &&
      report.protections == Protections(r.headers, r.body) &&
      report.endpoints == Sweep(fetch, baseUrl, CommonApiPaths) &&
      report.robots == FileContent(fetch(resolve(baseUrl, "/robots.txt"))) &&
      report.sitemap == FileContent(fetch(resolve(baseUrl, "/sitemap.xml")))
  {
    var host := ExtractHost(baseUrl);
    var v3 := IsV3Onion(host);
    var probe := fetch(baseUrl);
    match probe {
      case Failed(reason) =>
        report := Offline(v3, reason);
      case Received(r) =>
        var frameworks := DetectFramework(r.headers, r.body);
        var backends := DetectBackend(r.headers);
        var protections := TorProtection(r.headers, r.body);
        var endpoints := FindApis(fetch, baseUrl);
        var robots := FetchFile(fetch, resolve, baseUrl, "/robots.txt");
        var sitemap := FetchFile(fetch, resolve, baseUrl, "/sitemap.xml");
        report := Online(v3, r.status, r.headers, frameworks, backends, protections,
                         endpoints, robots, sitemap);
    }
  }
}
