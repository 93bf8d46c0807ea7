/**
 * What the tool sees of HTTP: one response (status, headers, body) or the
 * failure of a request, obtained through an abstract transport that stands for
 * `requests.get` through the Tor SOCKS proxy with the fixed headers and timeout.
 */
module Http {
  import opened Text

  datatype Option<T> = None | Some(value: T)

  /** One header field; a response's headers keep their order. */
  datatype Header = Header(name: string, value: string)

  datatype Response = Response(status: int, headers: seq<Header>, body: string)

  /** A `requests.get` call either returns a response or raises; `reason` is `str(e)`. */
  datatype Fetched = Received(response: Response) | Failed(reason: string)

  /** One GET of a URL, through the proxy. */
  type Transport = string -> Fetched

  /**
   * `name in headers` on requests' case-insensitive header dictionary, for a
   * lower-case `name`: some header's name, lower-cased, equals it.
   */
  function HasHeader(headers: seq<Header>, name: string): (r: bool)
    ensures r <==> exists i :: 0 <= i < |headers| && Lower(headers[i].name) == name
  {
    if headers == [] then false
    else Lower(headers[0].name) == name || HasHeader(headers[1..], name)
  }

  /** `str(headers)`: the repr of a dict, `{'Name': 'value', ...}`. */
  function ReprHeaders(headers: seq<Header>): string
  {
    "{" + ReprItems(headers) + "}"
  }

  function ReprItems(headers: seq<Header>): string
  {
    if headers == [] then ""
    else if |headers| == 1 then ReprItem(headers[0])
    else ReprItem(headers[0]) + ", " + ReprItems(headers[1..])
  }

  function ReprItem(h: Header): string
  {
    "'" + h.name + "': '" + h.value + "'"
  }

  lemma ReprItemShows(h: Header)
    ensures Contains(ReprItem(h), h.name) && Contains(ReprItem(h), h.value)
  {
    ContainsSelf(h.name);
    ContainsPrepend("'", h.name, h.name);
    ContainsAppend("'" + h.name, "': '" + h.value + "'", h.name);
    assert "'" + h.name + "': '" + h.value + "'" == ("'" + h.name) + ("': '" + h.value + "'");
    ContainsSelf(h.value);
    ContainsPrepend("'" + h.name + "': '", h.value, h.value);
    ContainsAppend("'" + h.name + "': '" + h.value, "'", h.value);
  }

  lemma {:induction false} ReprItemsShow(headers: seq<Header>, k: int)
    requires 0 <= k < |headers|
    ensures Contains(ReprItems(headers), headers[k].name)
    ensures Contains(ReprItems(headers), headers[k].value)
  {
    var first := ReprItem(headers[0]);
    if k == 0 {
      ReprItemShows(headers[0]);
      if |headers| > 1 {
        ContainsAppend(first, ", " + ReprItems(headers[1..]), headers[0].name);
        ContainsAppend(first, ", " + ReprItems(headers[1..]), headers[0].value);
        assert first + ", " + ReprItems(headers[1..]) == first + (", " + ReprItems(headers[1..]));
      }
    } else {
      ReprItemsShow(headers[1..], k - 1);
      ContainsPrepend(first + ", ", ReprItems(headers[1..]), headers[k].name);
      ContainsPrepend(first + ", ", ReprItems(headers[1..]), headers[k].value);
    }
  }

  /** Every header name and every header value occurs in `str(headers)`. */
  lemma ReprShowsHeaders(headers: seq<Header>, k: int)
    requires 0 <= k < |headers|
    ensures Contains(ReprHeaders(headers), headers[k].name)
    ensures Contains(ReprHeaders(headers), headers[k].value)
  {
    var items := ReprItems(headers);
    ReprItemsShow(headers, k);
    ContainsPrepend("{", items, headers[k].name);
    ContainsPrepend("{", items, headers[k].value);
    ContainsAppend("{" + items, "}", headers[k].name);
    ContainsAppend("{" + items, "}", headers[k].value);
  }
}
