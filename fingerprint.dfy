/**
 * The fingerprinting classifiers: `detect_framework`, `detect_backend` and
 * `tor_protection`. Each reads one response and reports named findings.
 */
module Fingerprint {
  import opened Text
  import opened Lists
  import opened Http

  /** A row of a signature table: a finding and the lower-case tokens that reveal it. */
  datatype Signature = Signature(name: string, tokens: seq<string>)

  /** The framework table of `detect_framework`, in its dictionary order. */
  const FrameworkSignatures: seq<Signature> := [
    Signature("Flask", ["werkzeug", "flask"]),
    Signature("Django", ["django", "csrftoken"]),
    Signature("Express.js", ["express", "x-powered-by"]),
    Signature("PHP", ["php", "phpsessid"]),
    Signature("Laravel", ["laravel"]),
    Signature("Ruby on Rails", ["rails", "_rails_session"]),
    Signature("ASP.NET", ["asp.net"])
  ]

  /** The five tests of `detect_backend`, in the order they run on each header value. */
  const BackendSignatures: seq<Signature> := [
    Signature("PHP", ["php"]),
    Signature("Python", ["python"]),
    Signature("Node.js", ["node"]),
    Signature("Ruby", ["ruby"]),
    Signature("Java", ["java"])
  ]

  /** Some token occurs in the text. */
  predicate AnyToken(tokens: seq<string>, data: string)
  {
    exists k :: 0 <= k < |tokens| && Contains(data, tokens[k])
  }

  function Names(table: seq<Signature>): seq<string>
  {
    seq(|table|, i requires 0 <= i < |table| => table[i].name)
  }

  function Hits(table: seq<Signature>, data: string): seq<bool>
  {
    seq(|table|, i requires 0 <= i < |table| => AnyToken(table[i].tokens, data))
  }

  /** The names of the rows with a token in `data`, in table order. */
  function Matching(table: seq<Signature>, data: string): seq<string>
  {
    Select(Names(table), Hits(table, data))
  }

  lemma MatchingSnoc(table: seq<Signature>, i: int, data: string)
    requires 0 <= i < |table|
    ensures Matching(table[..i + 1], data) ==
      Matching(table[..i], data) + (if AnyToken(table[i].tokens, data) then [table[i].name] else [])
  {
    var names, hits := Names(table), Hits(table, data);
    assert Names(table[..i + 1]) == names[..i + 1];
    assert Names(table[..i]) == names[..i];
    assert Hits(table[..i + 1], data) == hits[..i + 1];
    assert Hits(table[..i], data) == hits[..i];
    SelectSnoc(names, hits, i);
  }

  /** A name is matched exactly when one of its rows has a token in the text. */
  lemma MatchingMember(table: seq<Signature>, data: string, n: string)
    ensures n in Matching(table, data) <==>
      exists i :: 0 <= i < |table| && table[i].name == n && AnyToken(table[i].tokens, data)
  {
    var names, hits := Names(table), Hits(table, data);
    SelectMember(names, hits, n);
    if exists i :: 0 <= i < |names| && hits[i] && names[i] == n {
      var i :| 0 <= i < |names| && hits[i] && names[i] == n;
      assert table[i].name == n && AnyToken(table[i].tokens, data);
    }
    if exists i :: 0 <= i < |table| && table[i].name == n && AnyToken(table[i].tokens, data) {
      var i :| 0 <= i < |table| && table[i].name == n && AnyToken(table[i].tokens, data);
      assert hits[i] && names[i] == n;
    }
  }

  lemma MatchingShape(table: seq<Signature>, data: string)
    requires NoDups(Names(table))
    ensures NoDups(Matching(table, data))
    ensures IsSubsequence(Matching(table, data), Names(table))
    ensures |Matching(table, data)| <= |table|
  {
    SelectNoDups(Names(table), Hits(table, data));
    SelectSubsequence(Names(table), Hits(table, data));
  }

  /** More text never unmatches a name. */
  lemma MatchingGrows(table: seq<Signature>, data: string, more: string)
    ensures forall n :: n in Matching(table, data) ==> n in Matching(table, data + more)
  {
    forall n | n in Matching(table, data)
      ensures n in Matching(table, data + more)
    {
      MatchingMember(table, data, n);
      var i :| 0 <= i < |table| && table[i].name == n && AnyToken(table[i].tokens, data);
      var k :| 0 <= k < |table[i].tokens| && Contains(data, table[i].tokens[k]);
      ContainsAppend(data, more, table[i].tokens[k]);
      MatchingMember(table, data + more, n);
    }
  }

  lemma MatchingNone(table: seq<Signature>, data: string)
    requires forall i :: 0 <= i < |table| ==> !AnyToken(table[i].tokens, data)
    ensures Matching(table, data) == []
  {
    SelectNone(Names(table), Hits(table, data));
  }

  lemma FrameworkNamesDistinct()
    ensures Names(FrameworkSignatures) ==
      ["Flask", "Django", "Express.js", "PHP", "Laravel", "Ruby on Rails", "ASP.NET"]
    ensures NoDups(Names(FrameworkSignatures))
  {
  }

  lemma BackendNamesDistinct()
    ensures Names(BackendSignatures) == ["PHP", "Python", "Node.js", "Ruby", "Java"]
    ensures NoDups(Names(BackendSignatures))
  {
  }

  // ---------------------------------------------------------------- frameworks

  /** The text `detect_framework` searches: `(str(headers) + body).lower()`. */
  function FrameworkText(headers: seq<Header>, body: string): string
  {
    Lower(ReprHeaders(headers) + body)
  }

  /** The frameworks reported for a response. */
  function Frameworks(headers: seq<Header>, body: string): seq<string>
  {
    Matching(FrameworkSignatures, FrameworkText(headers, body))
  }

  /**
   * `detect_framework`: for each row of the table, the first of its tokens found
   * in the text adds the row's name and ends the search for that row.
   */
  method DetectFramework(headers: seq<Header>, body: string) returns (frameworks: seq<string>)
    ensures frameworks == Frameworks(headers, body)
    ensures NoDups(frameworks)
    ensures forall n :: n in frameworks <==>
      exists i :: 0 <= i < |FrameworkSignatures| && FrameworkSignatures[i].name == n &&
        AnyToken(FrameworkSignatures[i].tokens, FrameworkText(headers, body))
  {
    var detected: seq<string> := [];
    var data := Lower(ReprHeaders(headers) + body);
    for i := 0 to |FrameworkSignatures|
      invariant detected == Matching(FrameworkSignatures[..i], data)
    {
      var sig := FrameworkSignatures[i];
      MatchingSnoc(FrameworkSignatures, i, data);
      for j := 0 to |sig.tokens|
        invariant forall k :: 0 <= k < j ==> !Contains(data, sig.tokens[k])
        invariant detected == Matching(FrameworkSignatures[..i], data)
      {
        if Contains(data, sig.tokens[j]) {
          detected := detected + [sig.name];
          break;
        }
      }
    }
    assert FrameworkSignatures[..|FrameworkSignatures|] == FrameworkSignatures;
    FrameworkNamesDistinct();
    MatchingShape(FrameworkSignatures, data);
    DistinctKeeps(detected);
    frameworks := Distinct(detected);
    forall n {
      MatchingMember(FrameworkSignatures, data, n);
    }
  }

  /** Every framework reported is a name of the table, reported once. */
  lemma FrameworksFromTable(headers: seq<Header>, body: string)
    ensures NoDups(Frameworks(headers, body))
    ensures forall n :: n in Frameworks(headers, body) ==> n in Names(FrameworkSignatures)
    ensures |Frameworks(headers, body)| <= |FrameworkSignatures|
  {
    var data := FrameworkText(headers, body);
    FrameworkNamesDistinct();
    MatchingShape(FrameworkSignatures, data);
    forall n | n in Frameworks(headers, body)
      ensures n in Names(FrameworkSignatures)
    {
      MatchingMember(FrameworkSignatures, data, n);
      var i :| 0 <= i < |FrameworkSignatures| && FrameworkSignatures[i].name == n &&
        AnyToken(FrameworkSignatures[i].tokens, data);
      assert Names(FrameworkSignatures)[i] == n;
    }
  }

  /** Appending text to the body never removes a framework. */
  lemma FrameworksGrowWithBody(headers: seq<Header>, body: string, more: string)
    ensures forall n :: n in Frameworks(headers, body) ==> n in Frameworks(headers, body + more)
  {
    var r := ReprHeaders(headers);
    LowerAppend(r + body, more);
    assert r + (body + more) == (r + body) + more;
    MatchingGrows(FrameworkSignatures, FrameworkText(headers, body), Lower(more));
  }

  /**
   * A token found in the lower-cased body, or in any header name or value
   * lower-cased, reveals its framework.
   */
  lemma FrameworkEvidence(headers: seq<Header>, body: string, i: int, t: int)
    requires 0 <= i < |FrameworkSignatures| && 0 <= t < |FrameworkSignatures[i].tokens|
    requires Contains(Lower(body), FrameworkSignatures[i].tokens[t]) ||
      exists k :: 0 <= k < |headers| &&
        (Contains(Lower(headers[k].name), FrameworkSignatures[i].tokens[t]) ||
         Contains(Lower(headers[k].value), FrameworkSignatures[i].tokens[t]))
    ensures FrameworkSignatures[i].name in Frameworks(headers, body)
  {
    var tok := FrameworkSignatures[i].tokens[t];
    var r := ReprHeaders(headers);
    LowerAppend(r, body);
    if Contains(Lower(body), tok) {
      ContainsPrepend(Lower(r), Lower(body), tok);
    } else {
      var k :| 0 <= k < |headers| &&
        (Contains(Lower(headers[k].name), tok) || Contains(Lower(headers[k].value), tok));
      ReprShowsHeaders(headers, k);
      var field := if Contains(Lower(headers[k].name), tok) then headers[k].name else headers[k].value;
      ContainsLower(r, field);
      ContainsTransitive(Lower(r), Lower(field), tok);
      ContainsAppend(Lower(r), Lower(body), tok);
    }
    MatchingMember(FrameworkSignatures, FrameworkText(headers, body), FrameworkSignatures[i].name);
  }

  /** An X-Powered-By header, in any letter case, is reported as Express.js, whatever its value. */
  lemma PoweredByHeaderMeansExpress(headers: seq<Header>, body: string)
    requires HasHeader(headers, "x-powered-by")
    ensures "Express.js" in Frameworks(headers, body)
  {
    var k :| 0 <= k < |headers| && Lower(headers[k].name) == "x-powered-by";
    ContainsSelf("x-powered-by");
    FrameworkEvidence(headers, body, 2, 1);
  }

  // ---------------------------------------------------------------- backends

  /** What the loop of `detect_backend` appends, value by value, repetitions included. */
  function BackendHits(headers: seq<Header>): seq<string>
  {
    if headers == [] then []
    else
      BackendHits(headers[..|headers| - 1]) +
      Matching(BackendSignatures, Lower(headers[|headers| - 1].value))
  }

  /** The backend languages reported for some headers: `list(set(...))` of the hits. */
  function BackendLanguages(headers: seq<Header>): seq<string>
  {
    Distinct(BackendHits(headers))
  }

  lemma {:induction false} BackendHitsMember(headers: seq<Header>, n: string)
    ensures n in BackendHits(headers) <==>
      exists k :: 0 <= k < |headers| && n in Matching(BackendSignatures, Lower(headers[k].value))
  {
    if headers != [] {
      var m := |headers| - 1;
      BackendHitsMember(headers[..m], n);
      if exists k :: 0 <= k < |headers| && n in Matching(BackendSignatures, Lower(headers[k].value)) {
        var k :| 0 <= k < |headers| && n in Matching(BackendSignatures, Lower(headers[k].value));
        if k < m {
          assert headers[..m][k] == headers[k];
        }
      }
      if n in BackendHits(headers[..m]) {
        var k :| 0 <= k < m && n in Matching(BackendSignatures, Lower(headers[..m][k].value));
        assert headers[..m][k] == headers[k];
      }
    }
  }

  /**
   * The body of the loop of `detect_backend` for one lower-cased value: the five
   * tests in turn, each adding its language when its token occurs.
   */
  method ValueLanguages(v: string) returns (found: seq<string>)
    ensures found == Matching(BackendSignatures, v)
  {
    BackendTokens(v);
    found := [];
    assert Matching(BackendSignatures[..0], v) == [];
    if Contains(v, "php") {
      found := found + ["PHP"];
    }
    MatchingSnoc(BackendSignatures, 0, v);
    assert found == Matching(BackendSignatures[..1], v);
    if Contains(v, "python") {
      found := found + ["Python"];
    }
    MatchingSnoc(BackendSignatures, 1, v);
    assert found == Matching(BackendSignatures[..2], v);
    if Contains(v, "node") {
      found := found + ["Node.js"];
    }
    MatchingSnoc(BackendSignatures, 2, v);
    assert found == Matching(BackendSignatures[..3], v);
    if Contains(v, "ruby") {
      found := found + ["Ruby"];
    }
    MatchingSnoc(BackendSignatures, 3, v);
    assert found == Matching(BackendSignatures[..4], v);
    if Contains(v, "java") {
      found := found + ["Java"];
    }
    MatchingSnoc(BackendSignatures, 4, v);
    assert BackendSignatures[..5] == BackendSignatures;
  }

  /**
   * `detect_backend`: each header value, lower-cased, is tested for the five
   * tokens in turn, and the names found are deduplicated.
   */
  method DetectBackend(headers: seq<Header>) returns (backends: seq<string>)
    ensures backends == BackendLanguages(headers)
    ensures NoDups(backends)
    ensures forall n :: n in backends <==>
      exists k :: 0 <= k < |headers| && n in Matching(BackendSignatures, Lower(headers[k].value))
  {
    var found: seq<string> := [];
    for i := 0 to |headers|
      invariant found == BackendHits(headers[..i])
    {
      var names := ValueLanguages(Lower(headers[i].value));
      found := found + names;
      assert headers[..i + 1][..i] == headers[..i];
    }
    assert headers[..|headers|] == headers;
    backends := Distinct(found);
    forall n
      ensures n in backends <==>
        exists k :: 0 <= k < |headers| && n in Matching(BackendSignatures, Lower(headers[k].value))
    {
      BackendHitsMember(headers, n);
      DistinctMember(found, n);
    }
  }

  /** Each backend row has the one token its test in `detect_backend` looks for. */
  lemma BackendTokens(v: string)
    ensures AnyToken(BackendSignatures[0].tokens, v) == Contains(v, "php")
    ensures AnyToken(BackendSignatures[1].tokens, v) == Contains(v, "python")
    ensures AnyToken(BackendSignatures[2].tokens, v) == Contains(v, "node")
    ensures AnyToken(BackendSignatures[3].tokens, v) == Contains(v, "ruby")
    ensures AnyToken(BackendSignatures[4].tokens, v) == Contains(v, "java")
  {
    forall j | 0 <= j < 5
      ensures AnyToken(BackendSignatures[j].tokens, v) == Contains(v, BackendSignatures[j].tokens[0])
    {
      assert |BackendSignatures[j].tokens| == 1;
    }
  }

  /** What one lower-cased header value shows: each name exactly when its token occurs. */
  lemma BackendValue(v: string)
    ensures "PHP" in Matching(BackendSignatures, v) <==> Contains(v, "php")
    ensures "Python" in Matching(BackendSignatures, v) <==> Contains(v, "python")
    ensures "Node.js" in Matching(BackendSignatures, v) <==> Contains(v, "node")
    ensures "Ruby" in Matching(BackendSignatures, v) <==> Contains(v, "ruby")
    ensures "Java" in Matching(BackendSignatures, v) <==> Contains(v, "java")
    ensures forall n :: n in Matching(BackendSignatures, v) ==> n in Names(BackendSignatures)
  {
    BackendNamesDistinct();
    BackendTokens(v);
    MatchingMember(BackendSignatures, v, "PHP");
    MatchingMember(BackendSignatures, v, "Python");
    MatchingMember(BackendSignatures, v, "Node.js");
    MatchingMember(BackendSignatures, v, "Ruby");
    MatchingMember(BackendSignatures, v, "Java");
    forall n | n in Matching(BackendSignatures, v)
      ensures n in Names(BackendSignatures)
    {
      MatchingMember(BackendSignatures, v, n);
    }
  }

  /**
   * Each language is reported exactly when some header value, lower-cased,
   * contains its token; nothing else is reported, and nothing twice.
   */
  lemma BackendLanguagesSpec(headers: seq<Header>)
    ensures NoDups(BackendLanguages(headers))
    ensures "PHP" in BackendLanguages(headers) <==>
      exists k :: 0 <= k < |headers| && Contains(Lower(headers[k].value), "php")
    ensures "Python" in BackendLanguages(headers) <==>
      exists k :: 0 <= k < |headers| && Contains(Lower(headers[k].value), "python")
    ensures "Node.js" in BackendLanguages(headers) <==>
      exists k :: 0 <= k < |headers| && Contains(Lower(headers[k].value), "node")
    ensures "Ruby" in BackendLanguages(headers) <==>
      exists k :: 0 <= k < |headers| && Contains(Lower(headers[k].value), "ruby")
    ensures "Java" in BackendLanguages(headers) <==>
      exists k :: 0 <= k < |headers| && Contains(Lower(headers[k].value), "java")
    ensures forall n :: n in BackendLanguages(headers) ==> n in Names(BackendSignatures)
  {
    var hits := BackendHits(headers);
    forall n
      ensures n in BackendLanguages(headers) <==>
        exists k :: 0 <= k < |headers| && n in Matching(BackendSignatures, Lower(headers[k].value))
    {
      BackendHitsMember(headers, n);
      DistinctMember(hits, n);
    }
    forall k | 0 <= k < |headers| {
      BackendValue(Lower(headers[k].value));
    }
  }

  // ---------------------------------------------------------------- protections

  /** The findings of `tor_protection`, in the order of its tests. */
  const ProtectionNames: seq<string> :=
    ["CAPTCHA", "JavaScript challenge", "Tor rate-limit / access control", "Cloudflare detected"]

  /** The four tests of `tor_protection`, in its order. */
  function ProtectionSignals(headers: seq<Header>, body: string): seq<bool>
  {
    [Contains(Lower(body), "captcha"),
     Contains(Lower(body), "javascript"),
     Contains(body, "403"),
     HasHeader(headers, "cf-ray")]
  }

  function Protections(headers: seq<Header>, body: string): seq<string>
  {
    Select(ProtectionNames, ProtectionSignals(headers, body))
  }

  /**
   * The findings of `tor_protection` are those whose tests hold, in test order,
   * each at most once.
   */
  lemma ProtectionsSpec(headers: seq<Header>, body: string)
    ensures NoDups(Protections(headers, body))
    ensures IsSubsequence(Protections(headers, body), ProtectionNames)
    ensures |Protections(headers, body)| <= 4
    ensures "CAPTCHA" in Protections(headers, body) <==> Contains(Lower(body), "captcha")
    ensures "JavaScript challenge" in Protections(headers, body) <==> Contains(Lower(body), "javascript")
    ensures "Tor rate-limit / access control" in Protections(headers, body) <==> Contains(body, "403")
    ensures "Cloudflare detected" in Protections(headers, body) <==> HasHeader(headers, "cf-ray")
  {
    var signals := ProtectionSignals(headers, body);
    assert NoDups(ProtectionNames);
    SelectNoDups(ProtectionNames, signals);
    SelectSubsequence(ProtectionNames, signals);
    assert signals[0] == Contains(Lower(body), "captcha");
    assert signals[1] == Contains(Lower(body), "javascript");
    assert signals[2] == Contains(body, "403");
    assert signals[3] == HasHeader(headers, "cf-ray");
    SelectMember(ProtectionNames, signals, "CAPTCHA");
    SelectMember(ProtectionNames, signals, "JavaScript challenge");
    SelectMember(ProtectionNames, signals, "Tor rate-limit / access control");
    SelectMember(ProtectionNames, signals, "Cloudflare detected");
  }

  /**
   * `tor_protection`: the findings whose tests hold, in test order. "captcha" and
   * "javascript" are looked for in the lower-cased body, "403" in the body as it is,
   * and "cf-ray" among the header names regardless of case.
   */
  method TorProtection(headers: seq<Header>, body: string) returns (protections: seq<string>)
    ensures protections == Protections(headers, body)
    ensures NoDups(protections) && IsSubsequence(protections, ProtectionNames)
    ensures |protections| <= 4
    ensures "CAPTCHA" in protections <==> Contains(Lower(body), "captcha")
    ensures "JavaScript challenge" in protections <==> Contains(Lower(body), "javascript")
    ensures "Tor rate-limit / access control" in protections <==> Contains(body, "403")
    ensures "Cloudflare detected" in protections <==> HasHeader(headers, "cf-ray")
  {
    ghost var signals := ProtectionSignals(headers, body);
    var captcha, challenge := Contains(Lower(body), "captcha"), Contains(Lower(body), "javascript");
    var forbidden, cloudflare := Contains(body, "403"), HasHeader(headers, "cf-ray");
    assert signals == [captcha, challenge, forbidden, cloudflare];
    protections := [];
    if captcha {
      protections := protections + ["CAPTCHA"];
    }
    SelectSnoc(ProtectionNames, signals, 0);
    assert protections == Select(ProtectionNames[..1], signals[..1]);
    if challenge {
      protections := protections + ["JavaScript challenge"];
    }
    SelectSnoc(ProtectionNames, signals, 1);
    assert protections == Select(ProtectionNames[..2], signals[..2]);
    if forbidden {
      protections := protections + ["Tor rate-limit / access control"];
    }
    SelectSnoc(ProtectionNames, signals, 2);
    assert protections == Select(ProtectionNames[..3], signals[..3]);
    if cloudflare {
      protections := protections + ["Cloudflare detected"];
    }
    SelectSnoc(ProtectionNames, signals, 3);
    assert ProtectionNames[..4] == ProtectionNames && signals[..4] == signals;
    ProtectionsSpec(headers, body);
  }

  // ---------------------------------------------------------------- all together

  /** An empty response (no headers, empty body) gives no finding from any classifier. */
  lemma EmptyResponseFindsNothing()
    ensures Frameworks([], "") == []
    ensures BackendLanguages([]) == []
    ensures Protections([], "") == []
  {
    var data := FrameworkText([], "");
    assert ReprHeaders([]) + "" == "{}";
    assert |data| == 2;
    forall i | 0 <= i < |FrameworkSignatures|
      ensures !AnyToken(FrameworkSignatures[i].tokens, data)
    {
      forall k | 0 <= k < |FrameworkSignatures[i].tokens|
        ensures !Contains(data, FrameworkSignatures[i].tokens[k])
      {
        ContainsLength(data, FrameworkSignatures[i].tokens[k]);
      }
    }
    MatchingNone(FrameworkSignatures, data);
    ContainsLength(Lower(""), "captcha");
    ContainsLength(Lower(""), "javascript");
    ContainsLength("", "403");
    SelectNone(ProtectionNames, ProtectionSignals([], ""));
  }
}
