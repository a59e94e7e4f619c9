/** `src/components/Layout.jsx`: the header title derived from the pathname and
    the logout button. */
module Layout {
  import opened Browser
  import Ascii
  import Seqs

  /** `s.replace("/", "")` with a string pattern: only the first `'/'` goes,
      wherever it is. */
  function RemoveFirstSlash(s: string): (r: string)
    ensures '/' !in s ==> r == s
    ensures '/' in s ==> |r| == |s| - 1
    ensures '/' in s ==> r == s[..Seqs.IndexOf(s, '/')] + s[Seqs.IndexOf(s, '/') + 1..]
  {
    if |s| == 0 then s
    else if s[0] == '/' then s[1..]
    else
      var rest := RemoveFirstSlash(s[1..]);
      assert s == [s[0]] + s[1..];
      if '/' in s[1..] then
        var k := Seqs.IndexOf(s[1..], '/');
        assert Seqs.IndexOf(s, '/') == k + 1;
        assert s[..k + 1] == [s[0]] + s[1..][..k];
        assert s[k + 2..] == s[1..][k + 1..];
        [s[0]] + rest
      else
        [s[0]] + rest
  }

  /** `routeTitle`: `"/"` is the dashboard; any other pathname loses its first
      `'/'` and has its first character upper-cased. */
  function RouteTitle(pathname: string): (r: string)
    ensures pathname == "/" ==> r == "Dashboard"
    ensures pathname != "/" ==> |r| == |RemoveFirstSlash(pathname)|
    ensures pathname != "/" && |r| > 0 ==>
      r[0] == Ascii.ToUpper(RemoveFirstSlash(pathname)[0]) && r[1..] == RemoveFirstSlash(pathname)[1..]
  {
    if pathname == "/" then "Dashboard"
    else
      var path := RemoveFirstSlash(pathname);
      if |path| == 0 then "" else [Ascii.ToUpper(path[0])] + path[1..]
  }

  /** For an ordinary pathname `"/" + rest` the title is `rest` capitalised;
      later slashes stay. */
  lemma RouteTitleOfPath(rest: string)
    requires |rest| > 0
    ensures RouteTitle("/" + rest) == [Ascii.ToUpper(rest[0])] + rest[1..]
  {
    assert ("/" + rest)[1..] == rest;
  }

  /** `"/a/b"` is titled `"A/b"`. */
  lemma NestedPathTitle()
    ensures RouteTitle("/a/b") == "A/b"
  {
    RouteTitleOfPath("a/b");
  }

  /** The header: `{routeTitle || "IronMan"}`. */
  function HeaderText(pathname: string): (r: string)
    ensures r == "IronMan" || r == RouteTitle(pathname)
    ensures |r| > 0
  {
    var t := RouteTitle(pathname);
    if t == "" then "IronMan" else t
  }

  /** The title is empty, and the header falls back to `"IronMan"`, only for the
      empty pathname. */
  lemma EmptyTitleOnlyForEmptyPath(pathname: string)
    ensures RouteTitle(pathname) == "" <==> pathname == ""
    ensures pathname == "" ==> HeaderText(pathname) == "IronMan"
  {
  }

  /** The power button: remove only `"auth"` and go to `/login`. */
  function Logout(b: Browser): (r: Browser)
    ensures AuthKey !in r.storage
    ensures r.path == LoginPath
    ensures forall k :: k != AuthKey ==> (k in r.storage <==> k in b.storage)
    ensures forall k :: k in r.storage ==> r.storage[k] == b.storage[k]
  {
    Browser(b.storage - {AuthKey}, LoginPath)
  }
}
