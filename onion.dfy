/**
 * The onion-address checks of the tool: `is_v3_onion` and the host that
 * `main` extracts from the target URL before classifying it.
 */
module Onion {
  import opened Text

  /** Length of the id that names a version 3 onion service. */
  const V3LabelLength := 56

  /** `is_v3_onion(host)`: ends with ".onion" and the text before the first '.' has 56 characters. */
  function IsV3Onion(host: string): (v3: bool)
    ensures v3 ==> V3LabelLength < |host| && host[V3LabelLength] == '.'
  {
    var id := BeforeFirst(host, '.');
    if EndsWith(host, ".onion") && |id| == V3LabelLength then
      assert host[|host| - 6] == '.';
      true
    else
      false
  }

  /**
   * What `is_v3_onion` accepts, without `split`: the host ends with ".onion",
   * its first 56 characters hold no '.', and character 56 is the first '.'.
   */
  lemma V3OnionShape(host: string)
    ensures IsV3Onion(host) <==>
      EndsWith(host, ".onion") && V3LabelLength < |host| && host[V3LabelLength] == '.' &&
      forall i :: 0 <= i < V3LabelLength ==> host[i] != '.'
  {
    var r := BeforeFirst(host, '.');
    assert forall k :: 0 <= k < |r| ==> host[k] == r[k] && host[k] != '.';
    if EndsWith(host, ".onion") {
      assert host[|host| - 6] == ".onion"[0];
    }
  }

  /** For a host that is one id and the ".onion" suffix, only the id's length decides. */
  lemma V3OnionLabel(id: string)
    requires '.' !in id
    ensures IsV3Onion(id + ".onion") <==> |id| == V3LabelLength
  {
    BeforeFirstAppend(id, ".onion", '.');
    assert (id + ".onion")[|id + ".onion"| - 6..] == ".onion";
  }

  /** The host printed with a port (as `main` passes it) is never a version 3 address. */
  lemma HostWithPortIsNotV3(id: string, port: string)
    requires port != [] && '.' !in port && 'n' !in port
    ensures !IsV3Onion(id + ".onion:" + port)
  {
    var host := id + ".onion:" + port;
    assert host[|host| - 1] == port[|port| - 1];
    assert ".onion"[5] == 'n';
  }

  /** A 56-letter label with the suffix is version 3; a short one is not. */
  lemma V3OnionExamples()
    ensures IsV3Onion(seq(V3LabelLength, _ => 'a') + ".onion")
    ensures !IsV3Onion("shortname.onion")
  {
    V3OnionLabel(seq(V3LabelLength, _ => 'a'));
    V3OnionLabel("shortname");
    assert "shortname" + ".onion" == "shortname.onion";
  }

  /**
   * The host of `main`: every "http://" and then every "https://" removed
   * from the URL, then the text before the first '/'.
   */
  function ExtractHost(url: string): (host: string)
    ensures '/' !in host
  {
    BeforeFirst(RemoveAll(RemoveAll(url, "http://"), "https://"), '/')
  }

  /** Hosts as the URL's own part: the conditions under which the host comes back unchanged. */
  predicate PlainHost(host: string)
  {
    '/' !in host && (host == [] || host[|host| - 1] != ':')
  }

  predicate PathOrNothing(path: string)
  {
    path == [] || path[0] == '/'
  }

  /**
   * No occurrence of a scheme marker `pat` (its first '/' at index `j`, right after ':')
   * starts inside a host that has no '/' and does not end in ':', when what follows
   * the host is empty or starts with '/'.
   */
  lemma NoSchemeInHost(host: string, path: string, pat: string, j: int)
    requires 1 <= j < |pat|
    requires forall k :: 0 <= k < j ==> pat[k] != '/'
    requires pat[j] == '/' && pat[j - 1] == ':'
    requires PlainHost(host) && PathOrNothing(path)
    ensures forall i :: 0 <= i < |host| ==> !StartsWith((host + path)[i..], pat)
  {
    forall i | 0 <= i < |host|
      ensures !StartsWith((host + path)[i..], pat)
    {
      var w := (host + path)[i..];
      if |pat| <= |w| {
        var d := |host| - i;
        if d > j {
          assert host[i + j] in host;
          assert w[..|pat|][j] != pat[j];
        } else if d < j {
          assert w[d] == path[0];
          assert w[..|pat|][d] != pat[d];
        } else {
          assert w[j - 1] == host[|host| - 1];
          assert w[..|pat|][j - 1] != pat[j - 1];
        }
      }
    }
  }

  /** Removing a marker that does not start with '/' keeps a leading '/'. */
  lemma LeadingSlashKept(s: string, pat: string)
    requires pat != [] && pat[0] != '/'
    requires s == [] || s[0] == '/'
    ensures RemoveAll(s, pat) == [] || RemoveAll(s, pat)[0] == '/'
  {
    if s != [] && |pat| <= |s| {
      assert s[..|pat|][0] != pat[0];
    }
  }

  /** Removing `marker` from `marker + host + path` leaves the host in front. */
  lemma RemoveLeadingMarker(marker: string, j: int, host: string, path: string)
    requires (marker == "http://" && j == 5) || (marker == "https://" && j == 6)
    requires PlainHost(host) && PathOrNothing(path)
    ensures RemoveAll(marker + host + path, marker) == host + RemoveAll(path, marker)
  {
    var url := marker + host + path;
    assert StartsWith(url, marker);
    assert url[|marker|..] == host + path;
    NoSchemeInHost(host, path, marker, j);
    RemoveAllKeepsPrefix(host, path, marker);
  }

  /** Removing "http://" from an "https://" URL leaves its scheme and host in front. */
  lemma HttpsKeepsPrefix(host: string, path: string)
    requires PlainHost(host) && PathOrNothing(path)
    ensures RemoveAll("https://" + host + path, "http://") == "https://" + host + RemoveAll(path, "http://")
  {
    var scheme := "https://";
    NoSchemeInHost(host, path, "http://", 5);
    forall i | 0 <= i < |scheme + host|
      ensures !StartsWith((scheme + host + path)[i..], "http://")
    {
      var w := (scheme + host + path)[i..];
      if 7 <= |w| {
        if i == 0 {
          assert w[..7][4] == scheme[4];
          assert w[..7][4] != "http://"[4];
        } else if i < 8 {
          assert w[..7][0] == scheme[i];
          assert w[..7][0] != "http://"[0];
        } else {
          assert w == (host + path)[i - 8..];
        }
      }
    }
    RemoveAllKeepsPrefix(scheme + host, path, "http://");
  }

  /**
   * The host extracted from `scheme + host + path` is `host`, for a host
   * without '/' that does not end in ':' and a path that is empty or starts with '/'.
   */
  lemma HostOfUrl(scheme: string, host: string, path: string)
    requires scheme == "http://" || scheme == "https://"
    requires PlainHost(host) && PathOrNothing(path)
    ensures ExtractHost(scheme + host + path) == host
  {
    LeadingSlashKept(path, "http://");
    var p1 := RemoveAll(path, "http://");
    LeadingSlashKept(p1, "https://");
    var p2 := RemoveAll(p1, "https://");
    if scheme == "http://" {
      RemoveLeadingMarker("http://", 5, host, path);
      assert RemoveAll(host + p1, "https://") == host + p2 by {
        NoSchemeInHost(host, p1, "https://", 6);
        RemoveAllKeepsPrefix(host, p1, "https://");
      }
    } else {
      HttpsKeepsPrefix(host, path);
      RemoveLeadingMarker("https://", 6, host, p1);
    }
    BeforeFirstAppend(host, p2, '/');
  }
}
