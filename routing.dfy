/** How the router hands a path segment to a page declared with a `:param` pattern, for the
    patterns the wizard navigates to: a fixed prefix followed by one non-empty segment. */
module Routing {
  import opened Wrappers
  import opened JsValues

  /** The parameter of `path` under the pattern `prefix + ":param"`, if the path matches. */
  function RouteParam(prefix: string, path: string): (r: Option<string>)
    ensures r.Some? ==> path == prefix + r.value && r.value != "" && '/' !in r.value
    ensures r.None? ==> !(prefix <= path) || |path| == |prefix| || '/' in path[|prefix|..]
  {
    if prefix <= path && |path| > |prefix| && '/' !in path[|prefix|..] then
      assert path == prefix + path[|prefix|..];
      Some(path[|prefix|..])
    else None
  }

  /** The path built by a template literal from a backend id comes back as the id's
      decimal string: the page behind it receives a string, whatever the id's type. */
  lemma {:induction false} ParamOfId(prefix: string, id: Value)
    requires id.Num?
    ensures RouteParam(prefix, prefix + ToString(id)) == Some(ToString(id))
  {
    var t := ToString(id);
    var path := prefix + t;
    assert path[|prefix|..] == t;
    assert '/' !in t by {
      if id.n < 0 {
        assert t == "-" + DecimalString(-id.n);
        assert forall i :: 1 <= i < |t| ==> t[i] == DecimalString(-id.n)[i - 1];
      }
    }
  }
}
