// The reverse proxies of internal/server/server_proxy.go: the Couchbase API
// proxy picks its cluster from the Referer, the Couchbase UI proxy from the
// request path; both forward to the cluster's `-ui` service on port 8091.
// URL parsing is a parameter: `urlPath(u)` is the `Path` of `url.Parse(u)`,
// or `None` when parsing fails.
module Proxy {
  import opened Wrappers
  import opened Text

  const CuiPrefix := "/cui/"

  /**
   * `strings.SplitN(s, "/", 2)`: the text before the first `/` and what
   * follows from that `/` on.
   */
  function FirstSegment(s: string): (r: (string, string))
    ensures s == r.0 + r.1
    ensures forall i :: 0 <= i < |r.0| ==> r.0[i] != '/'
    ensures r.1 == [] || r.1[0] == '/'
  {
    var i := IndexOf(s, '/');
    (s[..i], s[i..])
  }

  /** The cluster a `/cui/<name>/...` path names: the first segment after `/cui/`. */
  function ClusterOf(path: string): string
  {
    FirstSegment(TrimPrefix(path, CuiPrefix)).0
  }

  /** The in-cluster address of a cluster's UI service. */
  function TargetHost(cluster: string, namespace: string): string
  {
    cluster + "-ui." + namespace + ".svc.cluster.local:8091"
  }

  /** How a proxy handler answers before forwarding anything. */
  datatype Outcome = Refused(status: nat) | Forward(cluster: string, host: string)

  /**
   * `handleCouchbaseAPIProxy` up to building the proxy: 400 without a
   * Referer, for an unparsable one, for one whose path is not under `/cui/`
   * or names no cluster; 500 without a namespace; otherwise the cluster's UI
   * service.
   */
  function ApiProxyTarget(referer: string, urlPath: string -> Option<string>, namespace: string): (o: Outcome)
    ensures o.Refused? ==> o.status == 400 || o.status == 500
    ensures o.Forward? <==>
      referer != "" && urlPath(referer).Some? && HasPrefix(urlPath(referer).value, CuiPrefix) &&
      ClusterOf(urlPath(referer).value) != "" && namespace != ""
    ensures o == Refused(500) <==>
      referer != "" && urlPath(referer).Some? && HasPrefix(urlPath(referer).value, CuiPrefix) &&
      ClusterOf(urlPath(referer).value) != "" && namespace == ""
  {
    if referer == "" then Refused(400)
    else if urlPath(referer).None? then Refused(400)
    else if !HasPrefix(urlPath(referer).value, CuiPrefix) then Refused(400)
    else if ClusterOf(urlPath(referer).value) == "" then Refused(400)
    else if namespace == "" then Refused(500)
    else
      var cluster := ClusterOf(urlPath(referer).value);
      Forward(cluster, TargetHost(cluster, namespace))
  }

  /**
   * A forwarded API request goes to the cluster whose name stands between
   * `/cui/` and the next `/` (or the end) of the Referer's path.
   */
  lemma ApiProxyForwardsToReferer(referer: string, urlPath: string -> Option<string>, namespace: string)
    requires ApiProxyTarget(referer, urlPath, namespace).Forward?
    ensures var o := ApiProxyTarget(referer, urlPath, namespace);
      o.cluster != "" && (forall i :: 0 <= i < |o.cluster| ==> o.cluster[i] != '/') &&
      o.host == o.cluster + "-ui." + namespace + ".svc.cluster.local:8091" &&
      exists rest :: urlPath(referer).value == CuiPrefix + o.cluster + rest && (rest == [] || rest[0] == '/')
  {
    var p := urlPath(referer).value;
    var seg := FirstSegment(TrimPrefix(p, CuiPrefix));
    assert p == CuiPrefix + seg.0 + seg.1;
  }

  /**
   * `handleCouchbaseUIProxy` up to building the proxy: 400 when the path
   * names no cluster, 500 without a namespace.
   */
  function UiProxyTarget(path: string, namespace: string): (o: Outcome)
    ensures o.Refused? ==> o.status == 400 || o.status == 500
    ensures o.Forward? <==> ClusterOf(path) != "" && namespace != ""
    ensures o.Forward? ==> o.cluster == ClusterOf(path)
  {
    if ClusterOf(path) == "" then Refused(400)
    else if namespace == "" then Refused(500)
    else Forward(ClusterOf(path), TargetHost(ClusterOf(path), namespace))
  }

  /** The request the proxy sends on, as its `Director` leaves it. */
  class OutboundRequest {
    var host: string
    var scheme: string
    var urlHost: string
    var path: string

    constructor(host: string, path: string)
      ensures this.host == host && this.path == path
      ensures scheme == "" && urlHost == ""
    {
      this.host := host;
      this.path := path;
      scheme := "";
      urlHost := "";
    }

    /** The API proxy's `Director`: the target host, the path kept. */
    method DirectApi(target: string)
      modifies this
      ensures host == target && scheme == "http" && urlHost == target
      ensures path == old(path)
    {
      host := target;
      scheme := "http";
      urlHost := target;
    }

    /** The UI proxy's `Director`: the target host, `/cui/<cluster>` stripped. */
    method DirectUi(target: string, cluster: string)
      modifies this
      ensures host == target && scheme == "http" && urlHost == target
      ensures old(path) == "/cui/" + cluster + path || (!HasPrefix(old(path), "/cui/" + cluster) && path == old(path))
    {
      host := target;
      scheme := "http";
      urlHost := target;
      path := TrimPrefix(path, "/cui/" + cluster);
    }
  }

  /**
   * What the UI service sees: once a path has been accepted for a cluster,
   * stripping `/cui/<cluster>` leaves either nothing or an absolute path.
   */
  lemma StrippedPathAbsolute(path: string, namespace: string)
    requires path != [] && path[0] == '/'
    requires UiProxyTarget(path, namespace).Forward?
    ensures var rest := TrimPrefix(path, "/cui/" + UiProxyTarget(path, namespace).cluster);
      path == "/cui/" + UiProxyTarget(path, namespace).cluster + rest && (rest == [] || rest[0] == '/')
  {
    var c := ClusterOf(path);
    assert HasPrefix(path, CuiPrefix);
    var seg := FirstSegment(TrimPrefix(path, CuiPrefix));
    assert path == "/cui/" + c + seg.1;
    TrimPrefixOfConcat("/cui/" + c, seg.1);
    assert path == ("/cui/" + c) + seg.1;
  }

  /** The `Location` a redirect is rewritten to: the redirect's path under the cluster. */
  function RewrittenLocation(cluster: string, locationPath: string): (l: string)
    ensures HasPrefix(l, "/cui/" + cluster)
    ensures TrimPrefix(l, "/cui/" + cluster) == locationPath
  {
    TrimPrefixOfConcat("/cui/" + cluster, locationPath);
    "/cui/" + cluster + locationPath
  }

  /** The response the proxy hands back, as its `ModifyResponse` leaves it. */
  class ProxiedResponse {
    var status: int
    var location: string

    constructor(status: int, location: string)
      ensures this.status == status && this.location == location
    {
      this.status := status;
      this.location := location;
    }

    /**
     * `ModifyResponse`: a 3xx answer with a `Location` that parses is pointed
     * back into the proxy as `RewrittenLocation` writes it (host and query
     * dropped); anything else is left alone.
     */
    method RewriteRedirect(cluster: string, urlPath: string -> Option<string>)
      modifies this
      ensures status == old(status)
      ensures 300 <= status < 400 && old(location) != "" && urlPath(old(location)).Some? ==>
        location == RewrittenLocation(cluster, urlPath(old(location)).value)
      ensures !(300 <= status < 400 && old(location) != "" && urlPath(old(location)).Some?) ==>
        location == old(location)
    {
      if status >= 300 && status < 400 {
        if location != "" {
          var parsed := urlPath(location);
          if parsed.Some? {
            location := RewrittenLocation(cluster, parsed.value);
          }
        }
      }
    }

    /**
     * The same step with the path placed below the cluster as
     * `IntendedLocation` does; it differs from `RewriteRedirect` only for a
     * relative `Location` path (`IntendedAgreesOnAbsolute`).
     */
    method RewriteRedirectCorrected(cluster: string, urlPath: string -> Option<string>)
      modifies this
      ensures status == old(status)
      ensures 300 <= status < 400 && old(location) != "" && urlPath(old(location)).Some? ==>
        location == IntendedLocation(cluster, urlPath(old(location)).value)
      ensures !(300 <= status < 400 && old(location) != "" && urlPath(old(location)).Some?) ==>
        location == old(location)
    {
      if status >= 300 && status < 400 {
        if location != "" {
          var parsed := urlPath(location);
          if parsed.Some? {
            location := IntendedLocation(cluster, parsed.value);
          }
        }
      }
    }
  }

  /**
   * Following a rewritten redirect to an absolute path comes back through
   * the UI proxy to the same cluster, and the UI service is asked for the
   * path it redirected to.
   */
  lemma RedirectRoundTrip(cluster: string, locationPath: string, namespace: string)
    requires cluster != "" && namespace != ""
    requires forall i :: 0 <= i < |cluster| ==> cluster[i] != '/'
    requires locationPath == [] || locationPath[0] == '/'
    ensures UiProxyTarget(RewrittenLocation(cluster, locationPath), namespace) ==
            Forward(cluster, TargetHost(cluster, namespace))
    ensures TrimPrefix(RewrittenLocation(cluster, locationPath), "/cui/" + cluster) == locationPath
  {
    var l := RewrittenLocation(cluster, locationPath);
    assert l == CuiPrefix + (cluster + locationPath);
    TrimPrefixOfConcat(CuiPrefix, cluster + locationPath);
    SegmentOf(cluster, locationPath);
  }

  /** A `/`-free name followed by nothing or an absolute path is the first segment. */
  lemma SegmentOf(name: string, rest: string)
    requires forall i :: 0 <= i < |name| ==> name[i] != '/'
    requires rest == [] || rest[0] == '/'
    ensures FirstSegment(name + rest).0 == name
  {
    SegmentAfter(name, rest);
    assert name + rest[..0] == name;
  }

  /** The first segment of a text behind a `/`-free name starts with that name. */
  lemma SegmentAfter(name: string, s: string)
    requires forall i :: 0 <= i < |name| ==> name[i] != '/'
    ensures FirstSegment(name + s).0 == name + FirstSegment(s).0
  {
    var t := name + s;
    var i := IndexOf(t, '/');
    var j := IndexOf(s, '/');
    assert forall k :: 0 <= k < |s| ==> t[|name| + k] == s[k];
    assert i >= |name|;
    assert i == |name| + j;
    assert t[..i] == name + s[..j];
  }

  /**
   * A relative redirect (`Location: index.html` for cluster `cb`) is glued
   * to the cluster name: the browser's next request names the cluster
   * `cbindex.html`.
   */
  lemma RelativeRedirectEscapes(cluster: string, locationPath: string)
    requires forall i :: 0 <= i < |cluster| ==> cluster[i] != '/'
    requires locationPath != [] && locationPath[0] != '/'
    ensures ClusterOf(RewrittenLocation(cluster, locationPath)) == cluster + FirstSegment(locationPath).0
    ensures ClusterOf(RewrittenLocation(cluster, locationPath)) != cluster
  {
    var l := RewrittenLocation(cluster, locationPath);
    assert l == CuiPrefix + (cluster + locationPath);
    TrimPrefixOfConcat(CuiPrefix, cluster + locationPath);
    SegmentAfter(cluster, locationPath);
    assert FirstSegment(locationPath).0 != [];
  }

  /** The rewrite as evidently intended: the redirect's path kept below `/cui/<cluster>/`. */
  function IntendedLocation(cluster: string, locationPath: string): (l: string)
    ensures HasPrefix(l, "/cui/" + cluster)
  {
    var p := if locationPath == [] || locationPath[0] == '/' then locationPath else "/" + locationPath;
    assert ("/cui/" + cluster + p)[..|"/cui/" + cluster|] == "/cui/" + cluster;
    "/cui/" + cluster + p
  }

  /** For an empty or absolute redirect path the intended rewrite is the one written. */
  lemma IntendedAgreesOnAbsolute(cluster: string, locationPath: string)
    requires locationPath == [] || locationPath[0] == '/'
    ensures IntendedLocation(cluster, locationPath) == RewrittenLocation(cluster, locationPath)
  {
  }

  /**
   * Every redirect rewritten the intended way leads back to the same
   * cluster, and the UI service sees the redirect's path made absolute.
   */
  lemma IntendedLocationRoundTrip(cluster: string, locationPath: string, namespace: string)
    requires cluster != "" && namespace != ""
    requires forall i :: 0 <= i < |cluster| ==> cluster[i] != '/'
    ensures UiProxyTarget(IntendedLocation(cluster, locationPath), namespace) ==
            Forward(cluster, TargetHost(cluster, namespace))
    ensures var rest := TrimPrefix(IntendedLocation(cluster, locationPath), "/cui/" + cluster);
      rest == locationPath || rest == "/" + locationPath
  {
    var p := if locationPath == [] || locationPath[0] == '/' then locationPath else "/" + locationPath;
    var l := IntendedLocation(cluster, locationPath);
    assert l == CuiPrefix + (cluster + p);
    TrimPrefixOfConcat(CuiPrefix, cluster + p);
    SegmentOf(cluster, p);
    assert l == ("/cui/" + cluster) + p;
    TrimPrefixOfConcat("/cui/" + cluster, p);
  }
}
