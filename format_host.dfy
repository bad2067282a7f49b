/** `formatHost` of the test utilities: the `protocol//host` prefix of a parsed URL. */
module FormatHost {
  import opened Wrappers
  import opened Strings

  /** The fields of Node's legacy `Url` record.  Each may be `null`; `protocol` keeps its trailing
      colon (`"https:"`). */
  datatype Url = Url(
    protocol: Option<string>,
    slashes: Option<bool>,
    auth: Option<string>,
    host: Option<string>,
    port: Option<string>,
    hostname: Option<string>,
    hash: Option<string>,
    search: Option<string>,
    pathname: Option<string>,
    path: Option<string>,
    href: string)

  /** How a template literal prints a nullable string: `null` prints as the text `null`. */
  function Show(s: Option<string>): (r: string)
    ensures s.Some? ==> r == s.value
    ensures s.None? ==> r == "null"
  {
    match s
    case Some(v) => v
    case None => "null"
  }

  function FormatHost(url: Url): (r: string)
    ensures |r| == |Show(url.protocol)| + 2 + |Show(url.host)|
    ensures r[..|Show(url.protocol)|] == Show(url.protocol)
    ensures r[|Show(url.protocol)|..|Show(url.protocol)| + 2] == "//"
    ensures r[|r| - |Show(url.host)|..] == Show(url.host)
  {
    Show(url.protocol) + "//" + Show(url.host)
  }

  /** Reads the protocol and host text back from a formatted host: the protocol is everything
      before the first `/`, the host everything after the `//` that follows it. */
  function SplitHost(s: string): Option<(string, string)> {
    match IndexOf(s, '/')
    case None => None
    case Some(i) =>
      if i + 2 <= |s| && s[i + 1] == '/' then Some((s[..i], s[i + 2..])) else None
  }

  /** When the protocol text has no `/`, a formatted host gives back its protocol and host. */
  lemma SplitFormatHost(url: Url)
    requires '/' !in Show(url.protocol)
    ensures SplitHost(FormatHost(url)) == Some((Show(url.protocol), Show(url.host)))
  {
    var p := Show(url.protocol);
    var s := FormatHost(url);
    assert s == p + ['/'] + ("/" + Show(url.host));
    IndexOfAfter(p, '/', "/" + Show(url.host));
    assert s[..|p|] == p && s[|p| + 2..] == Show(url.host);
  }

  /** Only the protocol and host matter: the path, query and every other field are ignored, and
      URLs with the same protocol and host give the same result. */
  lemma OnlyProtocolAndHost(a: Url, b: Url)
    requires a.protocol == b.protocol && a.host == b.host
    ensures FormatHost(a) == FormatHost(b)
  {
  }

  /** For protocols without `/`, the result determines the printed protocol and host. */
  lemma FormatHostDetermines(a: Url, b: Url)
    requires '/' !in Show(a.protocol) && '/' !in Show(b.protocol)
    requires FormatHost(a) == FormatHost(b)
    ensures Show(a.protocol) == Show(b.protocol) && Show(a.host) == Show(b.host)
  {
    SplitFormatHost(a);
    SplitFormatHost(b);
  }

  /** A missing host prints as the text `null`, like a host literally named `null`. */
  lemma NullHostIsPrinted(url: Url)
    requires url.host.None?
    ensures FormatHost(url) == Show(url.protocol) + "//null"
    ensures FormatHost(url) == FormatHost(url.(host := Some("null")))
  {
  }
}
