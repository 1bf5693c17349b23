/**
 * The paths the application's router declares, and the one query parameter
 * the pages read: `mode`, carried from the navigation bar through role
 * selection to the login page.
 */
module AppRoutes {
  import opened Wrappers

  const Routes: set<string> :=
    {"/", "/marketplace", "/community", "/analytics", "/orders", "/login", "/select-role", "/dashboard"}

  /** A character that ends a query value. */
  predicate IsValueEnd(c: char) {
    c == '&' || c == '#'
  }

  /** The longest prefix of `s` without a value-ending character. */
  function ValuePrefix(s: string): (v: string)
    ensures |v| <= |s| && v == s[..|v|]
    ensures forall i :: 0 <= i < |v| ==> !IsValueEnd(v[i])
    ensures |v| < |s| ==> IsValueEnd(s[|v|])
  {
    if s == [] || IsValueEnd(s[0]) then [] else [s[0]] + ValuePrefix(s[1..])
  }

  /** `searchParams.get('mode')` for a URL whose query starts with the mode: its raw value, or nothing when the URL is not of that form. */
  function ModeParam(url: string, path: string): (r: Option<string>)
    ensures r.Some? <==> |path| + 6 <= |url| && url[..|path| + 6] == path + "?mode="
  {
    var prefix := path + "?mode=";
    if |prefix| <= |url| && url[..|prefix|] == prefix then Some(ValuePrefix(url[|prefix|..])) else None
  }

  /** A value that reads back as itself: no character that ends it or that a query decoder would rewrite. */
  predicate PlainValue(v: string) {
    forall i :: 0 <= i < |v| ==> !IsValueEnd(v[i]) && v[i] != '%' && v[i] != '+'
  }

  /** Appending a plain mode to a path and reading it back gives the mode. */
  lemma ModeRoundTrip(path: string, mode: string)
    requires PlainValue(mode)
    ensures ModeParam(path + "?mode=" + mode, path) == Some(mode)
  {
    var prefix := path + "?mode=";
    var url := prefix + mode;
    assert url[..|prefix|] == prefix;
    assert url[|prefix|..] == mode;
    assert ValuePrefix(mode) == mode;
  }
}
