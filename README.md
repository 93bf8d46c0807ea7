# TORRECON fingerprinting engine in Dafny

TORRECON is a reconnaissance tool for one onion (Tor hidden) HTTP service. It
takes a base URL and decides whether the host looks like a version 3 onion
address. It requests the URL once through the Tor SOCKS proxy and reads the
response. From that response it reports frameworks, backend languages and
anti-automation protections. It then sweeps ten common API paths and fetches
`robots.txt` and `sitemap.xml`.

This project models that engine and proves what each part reports:

- `Text`: the Python string operations the tool relies on, as functions.
  These are `lower()`, substring `in`, `endswith`, `split(sep)[0]`,
  `replace(pat, "")` and `rstrip(c)`.
- `Lists`: no duplicates, subsequence, `list(set(...))` (`Distinct`), and
  filtering a list by flags (`Select`).
- `Http`: headers, responses and the transport. The transport is a function
  from URL to `Received(response)` or `Failed(reason)`. It stands for
  `requests.get` through the proxy; `Failed` is any exception it raises.
  `ReprHeaders` is `str(headers)`.
- `Onion`: `is_v3_onion` and the host extraction in `main`.
- `Fingerprint`: `detect_framework`, `detect_backend` and `tor_protection`.
  Each is a method that follows the source's loops and tests, and is proved
  equal to a specification function. The framework and backend tokens are
  data tables (`FrameworkSignatures`, `BackendSignatures`), read by one
  function, `Matching`.
- `Probing`: `find_apis`, which is a loop over `COMMON_API_PATHS` whose failed
  requests are skipped, and `fetch_file`.
- `Recon`: the flow of `main` as `Scan`. Console output is replaced by a
  `Report` value.

The source keeps no shared mutable state. Each classifier builds a local list
and returns it. So the model has no classes: the loops are methods over local
sequences.

Two behaviours of the code are worth knowing:
- `main` keeps everything between the scheme and the first `/` as the host,
  port included (Torrecon.py:149). `Onion.HostWithPortIsNotV3` shows the
  effect: a 56-character onion address followed by `:port` is classified as
  not version 3.
- `detect_backend` tests each header value as a whole against its five
  tokens (Torrecon.py:82-93). A value can name several languages.

## Model

| member | source | states |
|---|---|---|
| `Onion.IsV3Onion` | Torrecon.py:47-48 | `is_v3_onion(h)`: when it holds, `h` is longer than 56 characters and has '.' at index 56. |
| `Text.EndsWith` | Torrecon.py:48 | `s.endswith(suffix)` holds iff `suffix` is no longer than `s` and its characters are the last ones of `s`, in order. |
| `Text.Lower` | Torrecon.py:69 | `lower()` (also at lines 83, 100 and 102) keeps the length. Each character is kept or is an upper-case letter turned into its lower-case partner, and no upper-case letter is left. |
| `Http.HasHeader` | Torrecon.py:106 | `"cf-ray" in headers`: the scan over the headers holds iff some header's name, lower-cased, equals the name sought. |
| `Onion.V3OnionShape` | Torrecon.py:47-48 | `is_v3_onion(h)` holds iff `h` ends with ".onion", is longer than 56 characters, has no '.' in its first 56 characters, and has '.' at index 56. It is total, so it never fails. |
| `Onion.V3OnionLabel` | Torrecon.py:47-48 | For a host made of one '.'-free label plus ".onion", the result is true iff the label has exactly 56 characters. |
| `Onion.V3OnionExamples` | Torrecon.py:47-48 | A 56-letter label plus ".onion" is version 3. "shortname.onion" is not. |
| `Onion.HostWithPortIsNotV3` | Torrecon.py:47-48 | A host that ends in ":port", as `main` passes it when the URL has a port, is never version 3. |
| `Onion.ExtractHost` | Torrecon.py:149 | The host extracted from any URL contains no '/'. |
| `Onion.HostOfUrl` | Torrecon.py:149 | For `http://` or `https://`, then a host with no '/' that does not end in ':', then nothing or a path starting with '/', the extracted host is exactly that host. |
| `Text.BeforeFirst` | Torrecon.py:149 | `s.split(sep)[0]` has no `sep`, is a prefix of `s`, and is followed in `s` by `sep` whenever it is shorter than `s`. |
| `Text.RemoveAllKeepsPrefix` | Torrecon.py:149 | `replace(pat, "")` leaves unchanged a prefix in which no occurrence of `pat` starts. |
| `Text.ContainsIff` | Torrecon.py:73 | The substring test `pat in text` holds iff `pat` occurs in `text` at some index. |
| `Http.ReprShowsHeaders` | Torrecon.py:69 | Every header name and every header value occurs in `str(headers)`. |
| `Fingerprint.MatchingMember` | Torrecon.py:71-75 | A table row's name is matched iff one of its tokens occurs in the text. |
| `Fingerprint.DetectFramework` | Torrecon.py:57-77 | The nested loop with `break`, followed by deduplication, returns the specification `Frameworks`. The result has no duplicates. A name is in it iff a token of that name's row occurs in `lower(str(headers) + body)`. |
| `Fingerprint.FrameworksFromTable` | Torrecon.py:58-77 | Every reported framework is one of the 7 table names, each is reported once, and at most 7 are reported. |
| `Fingerprint.FrameworksGrowWithBody` | Torrecon.py:69-75 | Appending text to the body never removes a framework. |
| `Fingerprint.FrameworkEvidence` | Torrecon.py:69-75 | A token in the lower-cased body, or in any lower-cased header name or value, makes its framework reported. |
| `Fingerprint.PoweredByHeaderMeansExpress` | Torrecon.py:61-69 | An `X-Powered-By` header, in any letter case, makes "Express.js" reported, because header names are part of `str(headers)`. |
| `Fingerprint.ValueLanguages` | Torrecon.py:83-93 | The five tests on one lower-cased header value return the backend table's names whose token occurs in it. There may be several. |
| `Fingerprint.DetectBackend` | Torrecon.py:79-95 | The loop over header values, followed by deduplication, returns the specification `BackendLanguages`. It has no duplicates. A name is in it iff some header value, lower-cased, matches that name's row. |
| `Fingerprint.BackendLanguagesSpec` | Torrecon.py:79-95 | PHP, Python, Node.js, Ruby and Java are each reported iff some lower-cased header value contains "php", "python", "node", "ruby" or "java" respectively. Nothing else is reported, and nothing is reported twice. |
| `Fingerprint.ProtectionsSpec` | Torrecon.py:97-109 | The protections have no duplicates and are at most 4. They form a subsequence of the four findings in test order. Each finding is present iff its test holds: "captcha" and "javascript" in the lower-cased body, "403" in the raw body, a "cf-ray" header name in any case. |
| `Fingerprint.TorProtection` | Torrecon.py:97-109 | The four tests with their appends return exactly the specification `Protections`, with all the properties above. |
| `Fingerprint.EmptyResponseFindsNothing` | Torrecon.py:57-109 | No headers and an empty body give no framework, no backend and no protection. |
| `Lists.Distinct` | Torrecon.py:95 | `list(set(xs))` has no duplicates and holds exactly the elements of `xs`. |
| `Lists.SelectSubsequence` | Torrecon.py:98-109 | Keeping the items whose flag is set gives a subsequence of the items, so the result is never longer. |
| `Probing.FindApis` | Torrecon.py:111-125 | The sweep loop returns the specification `Sweep` over `COMMON_API_PATHS`. It has at most 10 entries, and every status in it is 200, 401 or 403. |
| `Probing.SweepMember` | Torrecon.py:114-123 | An endpoint (path, status) is reported iff the path is in the list, its request succeeded, and it answered with that status, which is 200, 401 or 403. A failure or another status on other paths changes nothing. |
| `Probing.SweepOrder` | Torrecon.py:114-125 | The reported paths form a subsequence of the requested paths in request order, and there are at most as many of them. |
| `Text.TrimTrailing` | Torrecon.py:116 | `rstrip("/")` gives a prefix of the base that does not end in '/'. Everything it removed was '/'. |
| `Probing.ProbeUrlJoin` | Torrecon.py:116 | The requested URL is the base without its trailing '/' followed by the path, so a '/' never comes right before the path's leading '/'. A base with one more trailing '/' requests the same URL. |
| `Probing.SweepScenario` | Torrecon.py:114-123 | Suppose "/api" answers 401, "/graphql" answers 500, and every other request fails. Then only ("/api", 401) is reported. |
| `Probing.FetchFile` | Torrecon.py:127-137 | The result is the body iff the request succeeds with status exactly 200. Any other status, and any failure, give `None`. |
| `Recon.Scan` | Torrecon.py:148-200 | The report records whether the extracted host is version 3. It is `Offline`, with the failure's reason, iff the first request fails; then no classifier runs. Otherwise the report holds that response's status and headers, and each classifier's specified findings for it, the sweep's, and both discovery files' results. |

## Left out

- Network I/O: `requests.get`, the SOCKS proxy, request headers and timeout. They are the `Transport` parameter, a function from URL to response or failure. The model therefore treats a URL as answering the same way whenever it is requested.
- `check_online` is not a separate member. `Scan` makes its one request and turns a failure into `Offline` with the failure's text.
- `urljoin` is not modelled. `fetch_file` takes the resolved URL from an opaque `resolve(base, name)` parameter.
- `lower()` is modelled for ASCII letters only. Python's Unicode case mapping (for example of 'K', the Kelvin sign, to 'k') is not modelled.
- `str(headers)` is modelled as `{'Name': 'value', ...}`, with every character of names and values kept as it is. Python's choice of quote character and its escaping are not modelled. Escaping can add matches that the model misses: Python writes a non-printable character as `\xNN` or `\uNNNN`. For example, a header value of U+00AD followed by "jango" reads `\xadjango` in `str(headers)`, and the source then reports Django. The facts stated over the modelled text (`Fingerprint.DetectFramework`, `Fingerprint.EmptyResponseFindsNothing`, `Recon.Scan`) depend on this choice. `Fingerprint.FrameworkEvidence` does not: a token in a name or value is found either way.
- `"cf-ray" in headers` relies on the case-insensitive dictionary of the HTTP library. It is modelled as "some header name, lower-cased, equals cf-ray".
- `Fingerprint.DetectFramework`, `Fingerprint.DetectBackend`: `list(set(...))` has no specified order in Python. The contracts fix one order: table order for frameworks and first-occurrence order for backends. Python's `set` does not promise either. Only the membership, no-duplicate and size facts hold for every order. `Recon.Scan` inherits the same fixed order.
- The banner, all printing, the `"path → HTTP code"` text, the "Unknown" / "None detected" / "Not found" fallbacks, `sys.argv` handling and `sys.exit` are console and process control. Endpoints are (path, status) pairs, and `Scan` starts after the argument check.
- `r.text` (decoding the body) is the transport's job. A response's body is a string.
