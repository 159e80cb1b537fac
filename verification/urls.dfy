/** A model of Go's net/url.URL, restricted to the fields this service reads or prints. */
module Urls {

  /** scheme://host/path?rawQuery#fragment. The Opaque, User, RawPath, ForceQuery and
      OmitHost fields of Go's URL are not modelled. */
  datatype URL = URL(scheme: string, host: string, path: string, rawQuery: string, fragment: string)

  /** URL.String(): the scheme and ':', then '//' and the host when there is an authority
      to print, a '/' inserted before a relative path that follows a host, the path, then
      '?' and the raw query and '#' and the fragment when they are non-empty.
      Percent-escaping is not modelled. */
  function ToString(u: URL): string
  {
    (if u.scheme != "" then u.scheme + ":" else "")
    + (if (u.scheme != "" || u.host != "") && (u.host != "" || u.path != "") then "//" + u.host else "")
    + (if u.path != "" && u.path[0] != '/' && u.host != "" then "/" else "")
    + u.path
    + (if u.rawQuery != "" then "?" + u.rawQuery else "")
    + (if u.fragment != "" then "#" + u.fragment else "")
  }

  /** A URL as a server sees the request line: no scheme, no host, an absolute path. */
  predicate IsBarePath(u: URL)
  {
    u.scheme == "" && u.host == "" && |u.path| > 0 && u.path[0] == '/'
  }

  /** The string of a bare-path URL starts with the path's leading '/'. */
  lemma BarePathString(u: URL)
    requires IsBarePath(u)
    ensures |ToString(u)| > 0 && ToString(u)[0] == '/'
  {
    var tail := (if u.rawQuery != "" then "?" + u.rawQuery else "")
      + (if u.fragment != "" then "#" + u.fragment else "");
    assert ToString(u) == u.path + tail;
  }
}
