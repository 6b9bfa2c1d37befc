// Request classification in internal/server/server_functions.go: whether a
// request reaching `/` is a Couchbase API call to proxy or a page load
// (`isAPIRequest`), and which metric families the metrics endpoint lets
// through (`handleMetricsEndpoint`).
module ServerRouting {
  import opened Text

  /**
   * The parts of an HTTP request `isAPIRequest` reads. A header that is not
   * present reads as the empty string, as `Header.Get` returns it.
   */
  datatype Request = Request(
    verb: string,
    path: string,
    requestedWith: string,
    accept: string,
    contentType: string,
    fetchMode: string)

  /** The Couchbase REST path prefixes the fallback rule recognises. */
  const ApiPrefixes: seq<string> := ["/pools", "/settings", "/controller", "/nodes", "/indexes", "/query"]

  /** The path starts with one of `prefixes`. */
  predicate UnderAny(path: string, prefixes: seq<string>)
  {
    exists i :: 0 <= i < |prefixes| && HasPrefix(path, prefixes[i])
  }

  /** The Accept header asks for data (JSON, XML or anything). */
  predicate WantsData(accept: string)
  {
    Contains(accept, "application/json") || Contains(accept, "application/xml") || Contains(accept, "*/*")
  }

  /** A browser navigating to a page: HTML accepted, GET, fetch mode `navigate`. */
  predicate Navigation(r: Request)
  {
    Contains(r.accept, "text/html") && r.verb == "GET" && r.fetchMode == "navigate"
  }

  /**
   * The prefix loop of `isAPIRequest`: true as soon as one prefix matches.
   */
  method MatchesPrefix(path: string, prefixes: seq<string>) returns (found: bool)
    ensures found <==> UnderAny(path, prefixes)
  {
    for i := 0 to |prefixes|
      invariant !UnderAny(path, prefixes[..i])
    {
      if HasPrefix(path, prefixes[i]) {
        assert prefixes[i] == prefixes[..i + 1][i];
        return true;
      }
      assert forall k :: 0 <= k < i + 1 ==> prefixes[..i + 1][k] == prefixes[k];
    }
    assert prefixes[..|prefixes|] == prefixes;
    return false;
  }

  /**
   * `isAPIRequest`, its rules tried in order: an XHR header; an Accept asking
   * for data but not HTML; a JSON body; a browser navigation (not API);
   * finally the REST path prefixes.
   */
  method IsApiRequest(r: Request) returns (api: bool)
    ensures r.requestedWith == "XMLHttpRequest" ==> api
    ensures WantsData(r.accept) && !Contains(r.accept, "text/html") ==> api
    ensures r.contentType == "application/json" ==> api
    ensures api <==>
      r.requestedWith == "XMLHttpRequest" ||
      (WantsData(r.accept) && !Contains(r.accept, "text/html")) ||
      r.contentType == "application/json" ||
      (!Navigation(r) && UnderAny(r.path, ApiPrefixes))
  {
    if r.requestedWith == "XMLHttpRequest" {
      return true;
    }
    if WantsData(r.accept) {
      if !Contains(r.accept, "text/html") {
        return true;
      }
    }
    if r.contentType == "application/json" {
      return true;
    }
    if Contains(r.accept, "text/html") && r.verb == "GET" && r.fetchMode == "navigate" {
      return false;
    }
    api := MatchesPrefix(r.path, ApiPrefixes);
  }

  /**
   * A page load of an API-looking path is served the dashboard, not
   * proxied: the navigation rule comes before the prefixes.
   */
  method NavigationWinsOverPrefix(path: string, accept: string) returns (api: bool)
    requires Contains(accept, "text/html")
    ensures !api
  {
    api := IsApiRequest(Request("GET", path, "", accept, "", "navigate"));
  }

  /** With no telling headers, exactly the REST paths are proxied. */
  method PathDecides(path: string) returns (api: bool)
    ensures api <==> UnderAny(path, ApiPrefixes)
  {
    api := IsApiRequest(Request("GET", path, "", "", "", ""));
    assert !WantsData("") && !Contains("", "text/html");
  }

  // ---------------------------------------------------- the metrics endpoint

  /** The families whose names the allow-list maps to true, in order. */
  function Allowed(names: seq<string>, allowed: map<string, bool>): (r: seq<string>)
    ensures |r| <= |names|
  {
    if names == [] then []
    else
      var n := names[|names| - 1];
      Allowed(names[..|names| - 1], allowed) + (if n in allowed && allowed[n] then [n] else [])
  }

  /**
   * The filter loop of `handleMetricsEndpoint`: the parsed families, by
   * name, are kept when the allow-list says so.
   */
  method FilterFamilies(families: seq<string>, allowed: map<string, bool>) returns (result: seq<string>)
    ensures result == Allowed(families, allowed)
  {
    result := [];
    for i := 0 to |families|
      invariant result == Allowed(families[..i], allowed)
    {
      assert families[..i + 1][..i] == families[..i];
      var name := families[i];
      if name in allowed && allowed[name] {
        result := result + [name];
      }
    }
    assert families[..|families|] == families;
  }

  /** Exactly the allowed families pass, each as often as it was parsed. */
  lemma {:induction false} AllowedCounts(names: seq<string>, allowed: map<string, bool>, n: string)
    ensures multiset(Allowed(names, allowed))[n] ==
      if n in allowed && allowed[n] then multiset(names)[n] else 0
  {
    if names != [] {
      var names' := names[..|names| - 1];
      assert names == names' + [names[|names| - 1]];
      AllowedCounts(names', allowed, n);
    }
  }
}
