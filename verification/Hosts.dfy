/** Collecting hosts from a watched resource: from paths in its content and from its annotations, URLs cut down to
    their host, duplicates dropped (pkg/spi/types.go). */
module Hosts {
  import opened Text
  import opened Api
  import opened Metadata
  import opened RouteTypes

  /* ---------- URLs ---------- */

  predicate IsUrl(host: string) {
    HasPrefix(host, "http://") || HasPrefix(host, "https://")
  }

  /** The part before the first `c`. */
  function Until(s: string, c: char): (r: string)
    ensures |r| <= |s|
  {
    if s == "" || s[0] == c then "" else [s[0]] + Until(s[1..], c)
  }

  /** The part after the last `c`. */
  function AfterLast(s: string, c: char): (r: string)
    ensures |r| <= |s|
  {
    if s == "" then ""
    else if c in s[1..] then AfterLast(s[1..], c)
    else if s[0] == c then s[1..]
    else s
  }

  /** What follows the scheme. */
  function Rest(url: string): string
    requires IsUrl(url)
  {
    if HasPrefix(url, "http://") then url[7..] else url[8..]
  }

  /** What stands between "//" and the path, query or fragment of a URL. */
  function Authority(url: string): string
    requires IsUrl(url)
  {
    Until(Until(Until(Rest(url), '#'), '?'), '/')
  }

  /** The host part of a URL as written: the authority without the user information. */
  function WrittenHost(url: string): string
    requires IsUrl(url)
  {
    AfterLast(Authority(url), '@')
  }

  /** The user information, with the "@" behind it. */
  function UserOf(url: string): string
    requires IsUrl(url)
  {
    Authority(url)[..|Authority(url)| - |WrittenHost(url)|]
  }

  function PathOf(url: string): string
    requires IsUrl(url)
  {
    Until(Until(Rest(url), '#'), '?')[|Authority(url)|..]
  }

  /** The fragment, with the "#" before it. */
  function FragmentOf(url: string): string
    requires IsUrl(url)
  {
    Rest(url)[|Until(Rest(url), '#')|..]
  }

  /** The host of a URL, escapes decoded. */
  function HostOf(url: string): string
    requires IsUrl(url)
  {
    Unescaped(WrittenHost(url))
  }

  predicate IsAlphanumeric(c: char) {
    'a' <= c <= 'z' || 'A' <= c <= 'Z' || '0' <= c <= '9'
  }

  predicate IsHex(c: char) {
    'a' <= c <= 'f' || 'A' <= c <= 'F' || '0' <= c <= '9'
  }

  function HexValue(c: char): (v: nat)
    requires IsHex(c)
    ensures v < 16
  {
    if '0' <= c <= '9' then (c - '0') as int
    else if 'a' <= c <= 'f' then (c - 'a') as int + 10
    else (c - 'A') as int + 10
  }

  /** Every percent sign with two hexadecimal digits behind it stands for one byte. */
  function Unescaped(s: string): string {
    if s == "" then ""
    else if s[0] == '%' && |s| >= 3 && IsHex(s[1]) && IsHex(s[2]) then
      [(16 * HexValue(s[1]) + HexValue(s[2])) as char] + Unescaped(s[3..])
    else [s[0]] + Unescaped(s[1..])
  }

  /** An escape stands for the byte with this value, in upper or lower case; the rest is decoded on its own. */
  lemma {:induction false} UnescapedAt(a: string, x: char, y: char, b: string)
    requires '%' !in a && IsHex(x) && IsHex(y)
    ensures Unescaped(a + "%" + [x, y] + b) == a + [(16 * HexValue(x) + HexValue(y)) as char] + Unescaped(b)
    decreases |a|
  {
    var s := a + "%" + [x, y] + b;
    if a == "" {
      assert s == "%" + [x, y] + b && s[3..] == b;
    } else {
      UnescapedAt(a[1..], x, y, b);
      assert s[1..] == a[1..] + "%" + [x, y] + b && s[0] == a[0];
    }
  }

  lemma HexDigits(c: char)
    requires IsHex(c)
    ensures "0123456789abcdef"[HexValue(c)] == c || "0123456789ABCDEF"[HexValue(c)] == c
  {
  }

  lemma {:induction false} NothingEscaped(s: string)
    requires '%' !in s
    ensures Unescaped(s) == s
    decreases |s|
  {
    if s != "" { NothingEscaped(s[1..]); }
  }

  /** Every percent sign is followed by two hexadecimal digits. */
  predicate ValidEscapes(s: string) {
    forall i :: 0 <= i < |s| && s[i] == '%' ==> i + 2 < |s| && IsHex(s[i + 1]) && IsHex(s[i + 2])
  }

  /** Nothing, or a colon and digits. */
  predicate IsOptionalPort(s: string) {
    s == "" || (s[0] == ':' && forall c | c in s[1..] :: '0' <= c <= '9')
  }

  /** What may stand in a host without being escaped. */
  predicate IsHostChar(c: char) {
    IsAlphanumeric(c) || c in "-_.~!$&'()*+,;=:[]<>\"" || c as int >= 128
  }

  /** In a host only percent signs and bytes that are not ASCII may be escaped. */
  predicate ValidHostPart(s: string) {
    forall i :: 0 <= i < |s| ==>
      if s[i] == '%' then
        i + 2 < |s| && IsHex(s[i + 1]) && IsHex(s[i + 2]) && (HexValue(s[i + 1]) >= 8 || s[i..i + 3] == "%25")
      else IsHostChar(s[i])
  }

  /** In the zone of an IPv6 address spaces may be escaped as well, and what need not be. */
  predicate ValidZone(s: string) {
    forall i :: 0 <= i < |s| ==>
      if s[i] == '%' then
        && i + 2 < |s| && IsHex(s[i + 1]) && IsHex(s[i + 2])
        && (var c := (16 * HexValue(s[i + 1]) + HexValue(s[i + 2])) as char;
            s[i..i + 3] == "%25" || c == ' ' || (IsHostChar(c) && (c as int) < 128))
      else IsHostChar(s[i])
  }

  /** A name or an address, or an IPv6 address in brackets which may have a zone behind "%25" (RFC 6874), with an
      optional port. */
  predicate ValidHost(host: string) {
    if HasPrefix(host, "[") then
      && ']' in host
      && |AfterLast(host, ']')| < |host|
      && (var close := |host| - |AfterLast(host, ']')| - 1;
          var zone := Index(host[..close], "%25");
          && IsOptionalPort(host[close + 1..])
          && if zone < 0 then ValidHostPart(host)
             else ValidHostPart(host[..zone]) && ValidZone(host[zone..close]) && ValidHostPart(host[close..]))
    else
      ValidHostPart(host) && (':' in host ==> IsOptionalPort(":" + AfterLast(host, ':')))
  }

  predicate ValidUser(s: string) {
    ValidEscapes(s) && forall c | c in s :: IsAlphanumeric(c) || c in "-._:~!$&'()*+,;=%@"
  }

  predicate IsControl(c: char) {
    c < ' ' || c as int == 127
  }

  /** What a URL looks like that can be parsed. Control characters are allowed in the fragment only; escapes have to be
      valid everywhere but in the query. */
  predicate WellFormedUrl(url: string) {
    && IsUrl(url)
    && (forall c | c in Until(Rest(url), '#') :: !IsControl(c))
    && ValidUser(UserOf(url))
    && ValidHost(WrittenHost(url))
    && ValidEscapes(PathOf(url))
    && ValidEscapes(FragmentOf(url))
  }

  lemma {:induction false} AfterLastFound(user: string, host: string, c: char)
    requires c !in host
    ensures AfterLast(user + [c] + host, c) == host && AfterLast(host, c) == host
    decreases |user| + |host|
  {
    var s := user + [c] + host;
    if user == "" {
      assert s[1..] == host;
    } else {
      assert s[1..] == user[1..] + [c] + host;
      assert c in s[1..];
      AfterLastFound(user[1..], host, c);
    }
    if host != "" && user == "" { AfterLastAbsent(host, c); }
  }

  lemma {:induction false} AfterLastAbsent(s: string, c: char)
    requires c !in s
    ensures AfterLast(s, c) == s
  {
  }

  /** Section 3.2 of RFC 3986: the authority is preceded by "//", ended by the next "/", "?" or "#" or the end of the
      URL, and holds optional user information before the host. */
  lemma UrlHost(scheme: string, user: Option<string>, host: string, rest: string)
    requires scheme in {"http://", "https://"}
    requires forall c | c in host :: c !in "/?#@"
    requires user.Some? ==> forall c | c in user.value :: c !in "/?#"
    requires rest == "" || rest[0] in "/?#"
    ensures var authority := (if user.Some? then user.value + "@" else "") + host;
      && IsUrl(scheme + authority + rest) && WrittenHost(scheme + authority + rest) == host
      && HostOf(scheme + authority + rest) == Unescaped(host)
        && ('%' !in host ==> HostOf(scheme + authority + rest) == host)
  {
    var authority := (if user.Some? then user.value + "@" else "") + host;
    UrlAuthority(scheme, authority, rest);
    hide Authority, IsUrl;
    if user.Some? { AfterLastFound(user.value, host, '@'); } else { AfterLastAbsent(host, '@'); }
    assert user.None? ==> authority == host;
    if '%' !in host { NothingEscaped(host); }
  }

  /** A URL put together from its parts can be parsed exactly when each part can, whatever the query. */
  lemma UrlParts(scheme: string, user: Option<string>, host: string, path: string, query: string, fragment: string)
    requires scheme in {"http://", "https://"}
    requires forall c | c in host :: c !in "/?#@"
    requires user.Some? ==> forall c | c in user.value :: c !in "/?#"
    requires (path == "" || path[0] == '/') && forall c | c in path :: c !in "?#"
    requires (query == "" || query[0] == '?') && '#' !in query
    requires fragment == "" || fragment[0] == '#'
    ensures var authority := (if user.Some? then user.value + "@" else "") + host;
      WellFormedUrl(scheme + authority + (path + query + fragment)) <==>
        && (forall c | c in authority + path + query :: !IsControl(c))
        && (user.Some? ==> ValidUser(user.value))
        && ValidHost(host)
        && ValidEscapes(path) && ValidEscapes(fragment)
  {
    var before := if user.Some? then user.value + "@" else "";
    AuthorityChars(user, host);
    var url := scheme + (before + host) + (path + query + fragment);
    TailStart(path, query, fragment);
    UrlHost(scheme, user, host, path + query + fragment);
    CutFurther(scheme, before + host, path, query, fragment);
    PartsAre(scheme, before, host, path, query, fragment);
    if user.Some? { UserWithAt(user.value); } else { NoUser(); }
    hide Until, IsUrl, ValidHost, ValidEscapes, ValidUser, Rest, WrittenHost, IsControl, HostOf, Unescaped, UserOf,
         PathOf, FragmentOf;
  }

  lemma TailStart(path: string, query: string, fragment: string)
    requires path == "" || path[0] == '/'
    requires query == "" || query[0] == '?'
    requires fragment == "" || fragment[0] == '#'
    ensures path + query + fragment == "" || (path + query + fragment)[0] in "/?#"
  {
  }

  lemma PartsAre(scheme: string, before: string, host: string, path: string, query: string, fragment: string)
    requires scheme in {"http://", "https://"}
    requires forall c | c in before + host :: c !in "/?#"
    requires path + query + fragment == "" || (path + query + fragment)[0] in "/?#"
    requires var url := scheme + (before + host) + (path + query + fragment);
      && IsUrl(url) && WrittenHost(url) == host
      && Rest(url) == before + host + path + query + fragment
      && Until(Rest(url), '#') == before + host + path + query
      && Until(Until(Rest(url), '#'), '?') == before + host + path
    ensures var url := scheme + (before + host) + (path + query + fragment);
      && UserOf(url) == before && PathOf(url) == path && FragmentOf(url) == fragment
  {
    var authority, url := before + host, scheme + (before + host) + (path + query + fragment);
    UrlAuthority(scheme, authority, path + query + fragment);
    hide Authority, Until, IsUrl, Rest, WrittenHost;
    assert authority[..|before|] == before;
    assert (authority + path)[|authority|..] == path;
    assert (authority + path + query + fragment)[|authority + path + query|..] == fragment;
  }

  lemma AuthorityChars(user: Option<string>, host: string)
    requires forall c | c in host :: c !in "/?#@"
    requires user.Some? ==> forall c | c in user.value :: c !in "/?#"
    ensures forall c | c in (if user.Some? then user.value + "@" else "") + host :: c !in "/?#"
  {
  }

  /** Where the fragment and the query of such a URL are cut off. */
  lemma CutFurther(scheme: string, authority: string, path: string, query: string, fragment: string)
    requires scheme in {"http://", "https://"}
    requires forall c | c in authority :: c !in "/?#"
    requires forall c | c in path :: c !in "?#"
    requires (query == "" || query[0] == '?') && '#' !in query
    requires fragment == "" || fragment[0] == '#'
    ensures var url := scheme + authority + (path + query + fragment);
      && IsUrl(url) && Rest(url) == authority + path + query + fragment
      && Until(Rest(url), '#') == authority + path + query
      && Until(Until(Rest(url), '#'), '?') == authority + path
  {
    var url, whole := scheme + authority + (path + query + fragment), authority + path + query;
    assert authority + (path + query + fragment) == whole + fragment;
    assert url == scheme + (whole + fragment);
    AfterScheme(scheme, whole + fragment);
    hide IsUrl, Rest;
    assert '#' !in authority && '?' !in authority && '#' !in path && '?' !in path;
    CutAt(whole, fragment, '#');
    CutAt(authority + path, query, '?');
  }

  lemma AfterScheme(scheme: string, rest: string)
    requires scheme in {"http://", "https://"}
    ensures IsUrl(scheme + rest) && Rest(scheme + rest) == rest
  {
    var url := scheme + rest;
    assert url[|scheme|..] == rest && url[4] == scheme[4] && url[..|scheme|] == scheme;
  }

  lemma CutAt(s: string, rest: string, c: char)
    requires c !in s && (rest == "" || rest[0] == c)
    ensures Until(s + rest, c) == s
  {
    UntilWithin(s, rest, c);
    assert s + "" == s;
  }

  lemma UserWithAt(user: string)
    ensures ValidUser(user + "@") <==> ValidUser(user)
  {
    var s := user + "@";
    assert forall i :: 0 <= i < |user| ==> s[i] == user[i];
    assert s[|user|] == '@';
    if ValidUser(s) {
      forall i | 0 <= i < |user| && user[i] == '%'
        ensures i + 2 < |user| && IsHex(user[i + 1]) && IsHex(user[i + 2]) {
        assert s[i] == '%';
      }
      assert forall c | c in user :: c in s;
    }
  }

  lemma NoUser()
    ensures ValidUser("")
  {
  }

  lemma PlainPart(s: string)
    requires forall c | c in s :: IsHostChar(c) && c != '%'
    ensures ValidHostPart(s)
  {
    hide IsHostChar;
    assert forall i :: 0 <= i < |s| ==> s[i] in s;
  }

  lemma OrdinaryChar(c: char)
    requires IsAlphanumeric(c) || c in "-.:"
    ensures IsHostChar(c) && c != '%' && c != '['
  {
    assert "-.:" == ['-', '.', ':'];
  }

  /** Names of letters, digits, dashes and dots parse, with or without a port of digits; a port of anything else does
      not. */
  lemma OrdinaryHost(name: string, port: string)
    requires forall c | c in name :: IsAlphanumeric(c) || c in "-."
    requires forall c | c in port :: IsAlphanumeric(c)
    ensures ValidHost(name)
    ensures ValidHost(name + ":" + port) <==> forall c | c in port :: '0' <= c <= '9'
  {
    var host := name + ":" + port;
    forall c | c in host ensures IsAlphanumeric(c) || c in "-.:" {
      if c in name && !IsAlphanumeric(c) { assert c in "-."; }
    }
    NoColon(name);
    NoColon(port);
    hide IsHostChar, ValidHostPart, IsAlphanumeric, IsOptionalPort;
    forall c | c in host ensures IsHostChar(c) && c != '%' && c != '[' { OrdinaryChar(c); }
    assert forall c | c in name :: c in host;
    PlainPart(host);
    PlainPart(name);
    assert name + [':'] + port == host;
    AfterLastFound(name, port, ':');
    assert name != "" ==> name[0] in name;
    assert host[0] in host && host[|name|] == ':';
    hide AfterLast;
    PortDigits(port);
  }

  lemma NoColon(s: string)
    requires forall c | c in s :: IsAlphanumeric(c) || c in "-."
    ensures ':' !in s
  {
  }

  lemma PortDigits(port: string)
    ensures IsOptionalPort(":" + port) <==> forall c | c in port :: '0' <= c <= '9'
  {
    assert (":" + port)[1..] == port;
  }

  lemma UrlAuthority(scheme: string, authority: string, rest: string)
    requires scheme in {"http://", "https://"}
    requires forall c | c in authority :: c !in "/?#"
    requires rest == "" || rest[0] in "/?#"
    ensures IsUrl(scheme + authority + rest) && Authority(scheme + authority + rest) == authority
  {
    var url := scheme + authority + rest;
    assert url == scheme + (authority + rest) && url[4] == scheme[4];
    assert url[|scheme|..] == authority + rest;
    CutDown(authority, rest);
  }

  lemma CutDown(authority: string, rest: string)
    requires forall c | c in authority :: c !in "/?#"
    requires rest == "" || rest[0] in "/?#"
    ensures Until(Until(Until(authority + rest, '#'), '?'), '/') == authority
  {
    assert '#' !in authority && '?' !in authority && '/' !in authority;
    UntilWithin(authority, rest, '#');
    UntilWithin(authority, Until(rest, '#'), '?');
    UntilWithin(authority, Until(Until(rest, '#'), '?'), '/');
    var last := Until(Until(rest, '#'), '?');
    assert last == "" || last[0] == '/' by {
      if rest != "" && rest[0] == '/' {
        assert Until(rest, '#')[0] == '/';
      }
    }
    assert Until(last, '/') == "";
    assert authority + "" == authority;
  }

  lemma {:induction false} UntilWithin(s: string, rest: string, c: char)
    requires c !in s
    ensures Until(s + rest, c) == s + Until(rest, c)
    decreases |s|
  {
    if s == "" {
      assert s + rest == rest;
    } else {
      assert (s + rest)[1..] == s[1..] + rest;
      UntilWithin(s[1..], rest, c);
    }
  }

  /** The text starts like a URL, is one, and `host` is its host: escapes decoded, what stands between scheme and user
      information on the left and path, query or fragment on the right. */
  ghost predicate UrlWithHost(url: string, host: string) {
    exists scheme, user: Option<string>, written, rest ::
      SplitsInto(url, scheme, user, written, rest) && host == Unescaped(written)
  }

  ghost predicate SplitsInto(url: string, scheme: string, user: Option<string>, host: string, rest: string) {
    && scheme in {"http://", "https://"}
    && url == scheme + (if user.Some? then user.value + "@" else "") + host + rest
    && (forall c | c in host :: c !in "/?#@")
    && (user.Some? ==> forall c | c in user.value :: c !in "/?#")
    && (rest == "" || rest[0] in "/?#")
  }

  /** A found text counts as its host if it starts like a URL, and as itself otherwise. */
  ghost predicate CountsAs(found: string, host: string) {
    if (|found| >= 7 && found[..7] == "http://") || (|found| >= 8 && found[..8] == "https://")
    then UrlWithHost(found, host)
    else host == found
  }

  lemma {:induction false} UntilSplits(s: string, c: char)
    ensures var r := Until(s, c);
      r <= s && c !in r && (|r| < |s| ==> s[|r|] == c)
    decreases |s|
  {
    if s != "" && s[0] != c { UntilSplits(s[1..], c); }
  }

  lemma {:induction false} AfterLastSplits(s: string, c: char)
    ensures var r := AfterLast(s, c);
      c !in r && |r| <= |s| && s[|s| - |r|..] == r && (|r| < |s| ==> s[|s| - |r| - 1] == c)
    decreases |s|
  {
    if s != "" {
      AfterLastSplits(s[1..], c);
      if c in s[1..] { AfterLastShorter(s[1..], c); }
    }
  }

  lemma {:induction false} AfterLastShorter(s: string, c: char)
    requires c in s
    ensures |AfterLast(s, c)| < |s|
    decreases |s|
  {
    if c in s[1..] { AfterLastShorter(s[1..], c); }
  }

  /** The authority ends where the first of the three characters stands. */
  lemma AuthoritySplits(s: string)
    ensures var r := Until(Until(Until(s, '#'), '?'), '/');
      && r <= s && (forall c | c in r :: c !in "/?#") && (|r| < |s| ==> s[|r|] in "/?#")
  {
    UntilSplits(s, '#');
    UntilSplits(Until(s, '#'), '?');
    UntilSplits(Until(Until(s, '#'), '?'), '/');
  }

  lemma SchemeOf(url: string) returns (scheme: string)
    requires IsUrl(url)
    ensures scheme in {"http://", "https://"} && url == scheme + Rest(url)
  {
    scheme := if HasPrefix(url, "http://") then "http://" else "https://";
  }

  /** What the authority and the host within it look like. */
  lemma AuthorityOf(url: string)
    requires IsUrl(url)
    ensures Authority(url) <= Rest(url) && (forall c | c in Authority(url) :: c !in "/?#")
    ensures |Authority(url)| < |Rest(url)| ==> Rest(url)[|Authority(url)|] in "/?#"
    ensures var a, w := Authority(url), WrittenHost(url);
      '@' !in w && |w| <= |a| && a[|a| - |w|..] == w && (|w| < |a| ==> a[|a| - |w| - 1] == '@')
  {
    AuthoritySplits(Rest(url));
    AfterLastSplits(Authority(url), '@');
  }

  lemma UrlSplits(url: string) returns (scheme: string, user: Option<string>, rest: string)
    requires IsUrl(url)
    ensures SplitsInto(url, scheme, user, WrittenHost(url), rest)
  {
    hide Authority, Until, AfterLast, IsUrl, SplitsInto, WrittenHost, Rest;
    scheme := SchemeOf(url);
    AuthorityOf(url);
    var tail, authority := Rest(url), Authority(url);
    rest := tail[|authority|..];
    assert tail == authority + rest;
    user := PartsSplit(url, scheme, authority, WrittenHost(url), rest);
  }

  lemma PartsSplit(url: string, scheme: string, authority: string, written: string, rest: string)
    returns (user: Option<string>)
    requires scheme in {"http://", "https://"} && url == scheme + (authority + rest)
    requires (forall c | c in authority :: c !in "/?#") && (rest == "" || rest[0] in "/?#")
    requires '@' !in written && |written| <= |authority| && authority[|authority| - |written|..] == written
    requires |written| < |authority| ==> authority[|authority| - |written| - 1] == '@'
    ensures SplitsInto(url, scheme, user, written, rest)
  {
    user := if |written| < |authority| then Some(authority[..|authority| - |written| - 1]) else None;
    var before := if user.Some? then user.value + "@" else "";
    assert authority == before + written;
    assert forall c | c in written :: c in authority;
    Regroup(scheme, before, written, rest);
  }

  lemma Regroup(a: string, b: string, c: string, d: string)
    ensures a + ((b + c) + d) == a + b + c + d && a + (b + c) + d == a + b + c + d
  {
  }

  lemma SplitHost(url: string, scheme: string, user: Option<string>, host: string, rest: string)
    requires IsUrl(url) && SplitsInto(url, scheme, user, host, rest)
    ensures host == WrittenHost(url)
  {
    hide Authority, IsUrl, WrittenHost;
    Regroup(scheme, if user.Some? then user.value + "@" else "", host, rest);
    UrlHost(scheme, user, host, rest);
  }

  /** Every URL has exactly one host in that sense, and it is the one computed. */
  lemma HostIsUnique(url: string, host: string)
    requires IsUrl(url)
    ensures UrlWithHost(url, host) <==> host == HostOf(url)
  {
    var scheme, user, rest := UrlSplits(url);
    if UrlWithHost(url, host) {
      var s, u: Option<string>, w, r :| SplitsInto(url, s, u, w, r) && host == Unescaped(w);
      SplitHost(url, s, u, w, r);
    }
    hide SplitsInto, WrittenHost, IsUrl, Unescaped;
  }

  lemma CountsAsNormalised(found: string, host: string)
    ensures CountsAs(found, host) <==> host == Normalised(found)
  {
    if IsUrl(found) { HostIsUnique(found, host); }
    hide UrlWithHost, HostOf;
  }

  lemma NormalisedMembers(found: seq<string>, host: string)
    ensures host in AllNormalised(found) <==> exists f :: f in found && CountsAs(f, host)
  {
    hide CountsAs, Normalised;
    forall f ensures CountsAs(f, host) <==> host == Normalised(f) { CountsAsNormalised(f, host); }
    if f :| f in found && CountsAs(f, host) {
      var i :| 0 <= i < |found| && found[i] == f;
      assert AllNormalised(found)[i] == host;
    }
  }

  /** What a found host counts as. */
  function Normalised(host: string): string {
    if IsUrl(host) then HostOf(host) else host
  }

  function AllNormalised(hosts: seq<string>): seq<string> {
    seq(|hosts|, i requires 0 <= i < |hosts| => Normalised(hosts[i]))
  }

  /* ---------- extractors ---------- */

  datatype Extractor =
    | FromPaths(paths: seq<string>)
    | FromAnnotations(separator: string, keys: seq<string>)

  /** What is nested under a chain of field names, if it is there. */
  function Nested(j: Json, fields: seq<string>): Option<Json> {
    if fields == [] then Some(j)
    else if j.Fields? && fields[0] in j.fields then Nested(j.fields[fields[0]], fields[1..])
    else None
  }

  predicate IsTextList(j: Json) {
    j.List? && forall item | item in j.items :: item.Text?
  }

  /** A string, or all strings of a list of strings, at a dotted path; nothing else counts. */
  function HostsAt(j: Json, path: string): Option<seq<string>> {
    var found := Nested(j, Split(path, "."));
    if found.None? then None
    else if found.value.Text? then Some([found.value.text])
    else if IsTextList(found.value) then Some(seq(|found.value.items|,
        i requires 0 <= i < |found.value.items| => found.value.items[i].text))
    else None
  }

  /** A path leads through the fields it names; at its end a text counts, and so does a list of nothing but texts. */
  lemma HostsAtPath(j: Json, name: string, rest: string)
    requires '.' !in name
    ensures !(j.Fields? && name in j.fields) ==> HostsAt(j, name) == None && HostsAt(j, name + "." + rest) == None
    ensures j.Fields? && name in j.fields ==>
      && var found := j.fields[name];
      && HostsAt(j, name + "." + rest) == HostsAt(found, rest)
      && (found.Text? ==> HostsAt(j, name) == Some([found.text]))
      && (found.List? && (forall item | item in found.items :: item.Text?) ==>
            && HostsAt(j, name).Some? && |HostsAt(j, name).value| == |found.items|
            && forall i :: 0 <= i < |found.items| ==> HostsAt(j, name).value[i] == found.items[i].text)
      && (found.Fields? || found.Other? || (found.List? && exists item | item in found.items :: !item.Text?) ==>
            HostsAt(j, name) == None)
  {
    SeparableByChar(name, '.');
    assert ['.'] == ".";
    SplitStep(name, ".", rest);
    hide Contains, Separable, Index;
    assert Split(name + "." + rest, ".")[1..] == Split(rest, ".");
    WholePiece(name);
    assert Split(name, ".")[1..] == [];
    hide Split;
    if j.Fields? && name in j.fields {
      assert Nested(j, Split(name, ".")) == Nested(j.fields[name], []);
    }
  }

  lemma WholePiece(name: string)
    requires !Contains(name, ".")
    ensures Split(name, ".") == [name]
  {
  }

  function ContentOf(o: Obj): Json {
    if o.payload.Component? then o.payload.body else Other
  }

  predicate AllFound(j: Json, paths: seq<string>) {
    forall p | p in paths :: HostsAt(j, p).Some?
  }

  function PathHosts(j: Json, paths: seq<string>): seq<string> {
    if paths == [] then []
    else
      var last := HostsAt(j, paths[|paths| - 1]);
      PathHosts(j, paths[..|paths| - 1]) + if last.Some? then last.value else []
  }

  function AnnotationHosts(annotations: map<string, string>, separator: string, keys: seq<string>): seq<string>
    requires separator != ""
  {
    if keys == [] then []
    else
      var key := keys[|keys| - 1];
      AnnotationHosts(annotations, separator, keys[..|keys| - 1])
        + if key in annotations then Split(annotations[key], separator) else []
  }

  /** Found at paths: what some path leads to; in annotations: the parts of some of them. */
  lemma {:induction false} PathMembers(j: Json, paths: seq<string>, f: string)
    requires AllFound(j, paths)
    ensures f in PathHosts(j, paths) <==> exists p :: p in paths && f in HostsAt(j, p).value
    decreases |paths|
  {
    if paths != [] {
      var n := |paths| - 1;
      assert paths == paths[..n] + [paths[n]];
      PathMembers(j, paths[..n], f);
      hide HostsAt;
    }
  }

  lemma {:induction false} AnnotationMembers(annotations: map<string, string>, separator: string, keys: seq<string>,
                                             f: string)
    requires separator != ""
    ensures f in AnnotationHosts(annotations, separator, keys)
       <==> exists k :: k in keys && k in annotations && f in Split(annotations[k], separator)
    decreases |keys|
  {
    if keys != [] {
      var n := |keys| - 1;
      assert keys == keys[..n] + [keys[n]];
      AnnotationMembers(annotations, separator, keys[..n], f);
      hide Split;
    }
  }

  /** Every path leads somewhere, and one of them to a text that counts as `host`. */
  ghost predicate FoundAtPaths(o: Obj, paths: seq<string>, host: string) {
    && o.payload.Component?
    && (forall p | p in paths :: HostsAt(o.payload.body, p).Some?)
    && exists p, f :: p in paths && f in HostsAt(o.payload.body, p).value && CountsAs(f, host)
  }

  lemma PathsFound(o: Obj, paths: seq<string>, host: string)
    ensures host in AllNormalised(Extracted(o, FromPaths(paths))) <==> FoundAtPaths(o, paths, host)
  {
    var found := Extracted(o, FromPaths(paths));
    NormalisedMembers(found, host);
    hide CountsAs, AllNormalised, Normalised;
    if AllFound(ContentOf(o), paths) {
      forall f ensures f in found <==> exists p :: p in paths && f in HostsAt(ContentOf(o), p).value {
        PathMembers(ContentOf(o), paths, f);
      }
    }
    if !o.payload.Component? && paths != [] {
      assert paths[0] in paths && !AllFound(Other, paths) by { NothingInOther(paths[0]); }
    }
    hide HostsAt, PathHosts;
  }

  lemma NothingInOther(path: string)
    ensures HostsAt(Other, path) == None
  {
  }

  /** The extractors the authorization controller is set up with. */
  function HostExtractors(paths: seq<string>): seq<Extractor> {
    [FromPaths(paths), FromAnnotations(";", [EXTERNAL_ADDRESSES, PUBLIC_ADDRESSES])]
  }

  predicate ValidExtractor(e: Extractor) {
    e.FromAnnotations? ==> e.separator != ""
  }

  /** Everything an extractor finds; a failed extractor contributes nothing. */
  function Extracted(o: Obj, e: Extractor): seq<string>
    requires ValidExtractor(e)
  {
    match e
    case FromPaths(paths) => if AllFound(ContentOf(o), paths) then PathHosts(ContentOf(o), paths) else []
    case FromAnnotations(separator, keys) => AnnotationHosts(o.annotations, separator, keys)
  }

  predicate Succeeds(o: Obj, e: Extractor) {
    e.FromPaths? ==> AllFound(ContentOf(o), e.paths)
  }

  method ExtractAnnotations(o: Obj, separator: string, keys: seq<string>) returns (hosts: seq<string>)
    requires separator != ""
    ensures hosts == AnnotationHosts(o.annotations, separator, keys)
  {
    hosts := [];
    for i := 0 to |keys|
      invariant hosts == AnnotationHosts(o.annotations, separator, keys[..i])
    {
      assert keys[..i + 1][..i] == keys[..i];
      if keys[i] in o.annotations {
        hosts := hosts + Split(o.annotations[keys[i]], separator);
      }
    }
    assert keys[..|keys|] == keys;
  }

  method ExtractPaths(o: Obj, paths: seq<string>) returns (hosts: seq<string>, errs: seq<Error>)
    ensures hosts == PathHosts(ContentOf(o), paths)
    ensures errs == [] <==> AllFound(ContentOf(o), paths)
  {
    hide HostsAt;
    hosts, errs := [], [];
    for i := 0 to |paths|
      invariant hosts == PathHosts(ContentOf(o), paths[..i])
      invariant errs == [] <==> AllFound(ContentOf(o), paths[..i])
    {
      assert paths[..i + 1][..i] == paths[..i] && paths[i] in paths[..i + 1];
      var found := HostsAt(ContentOf(o), paths[i]);
      match found
      case Some(more) => hosts := hosts + more;
      case None => errs := errs + [Failure("neither string nor slice of strings found at path")];
    }
    assert paths[..|paths|] == paths;
  }

  method Extract(o: Obj, e: Extractor) returns (hosts: seq<string>, errs: seq<Error>)
    requires ValidExtractor(e)
    ensures errs == [] <==> Succeeds(o, e)
    ensures errs == [] ==> hosts == Extracted(o, e)
  {
    match e
    case FromPaths(paths) => hosts, errs := ExtractPaths(o, paths);
    case FromAnnotations(separator, keys) =>
      hosts := ExtractAnnotations(o, separator, keys);
      errs := [];
  }

  method AppendHosts(hosts: seq<string>, found: seq<string>) returns (all: seq<string>)
    requires forall h | h in found && IsUrl(h) :: WellFormedUrl(h)
    ensures all == hosts + AllNormalised(found)
  {
    all := hosts;
    for i := 0 to |found|
      invariant all == hosts + AllNormalised(found)[..i]
    {
      hide HostOf, IsUrl;
      assert AllNormalised(found)[..i + 1] == AllNormalised(found)[..i] + [Normalised(found[i])];
      if IsUrl(found[i]) {
        all := all + [HostOf(found[i])];
      } else {
        all := all + [found[i]];
      }
    }
  }

  /** Each element once, in whatever order a map of them comes up. */
  method Unique(elems: seq<string>) returns (unique: seq<string>)
    ensures NoDuplicates(unique)
    ensures forall e :: e in unique <==> e in elems
  {
    var known: set<string> := {};
    for i := 0 to |elems|
      invariant known == set e | e in elems[..i]
    {
      known := known + {elems[i]};
    }
    assert elems[..|elems|] == elems;
    var slots := new string[|known|];
    var i, rest := 0, known;
    while rest != {}
      invariant rest <= known && i + |rest| == slots.Length
      invariant NoDuplicates(slots[..i])
      invariant forall e :: e in slots[..i] <==> e in known && e !in rest
    {
      var e :| e in rest;
      ghost var before := slots[..i];
      slots[i] := e;
      i, rest := i + 1, rest - {e};
      assert slots[..i] == before + [e];
    }
    unique := slots[..i];
  }

  /** Every host any extractor found. */
  function Combined(o: Obj, extractors: seq<Extractor>): seq<string>
    requires forall e | e in extractors :: ValidExtractor(e)
  {
    if extractors == [] then []
    else Combined(o, extractors[..|extractors| - 1]) + AllNormalised(Extracted(o, extractors[|extractors| - 1]))
  }

  /** An extractor that succeeded found a text that counts as `host`. */
  ghost predicate FoundBySome(o: Obj, extractors: seq<Extractor>, host: string)
    requires forall e | e in extractors :: ValidExtractor(e)
  {
    exists e, f :: e in extractors && Succeeds(o, e) && f in Extracted(o, e) && CountsAs(f, host)
  }

  lemma {:induction false} CombinedMembers(o: Obj, extractors: seq<Extractor>, host: string)
    requires forall e | e in extractors :: ValidExtractor(e)
    ensures host in Combined(o, extractors) <==> FoundBySome(o, extractors, host)
    decreases |extractors|
  {
    hide CountsAs, AllNormalised, PathHosts, AllFound, AnnotationHosts;
    if extractors != [] {
      var n := |extractors| - 1;
      CombinedMembers(o, extractors[..n], host);
      NormalisedMembers(Extracted(o, extractors[n]), host);
      assert extractors == extractors[..n] + [extractors[n]];
      if FoundBySome(o, extractors, host) {
        var e, f :| e in extractors && Succeeds(o, e) && f in Extracted(o, e) && CountsAs(f, host);
        assert e == extractors[n] || e in extractors[..n];
      }
      if f :| f in Extracted(o, extractors[n]) && CountsAs(f, host) {
        assert extractors[n] in extractors && Succeeds(o, extractors[n]);
      }
    }
  }

  lemma CombinedIsFound(o: Obj, extractors: seq<Extractor>)
    requires forall e | e in extractors :: ValidExtractor(e)
    ensures forall h :: h in Combined(o, extractors) <==> FoundBySome(o, extractors, h)
  {
    hide Combined, FoundBySome;
    forall h ensures h in Combined(o, extractors) <==> FoundBySome(o, extractors, h) {
      CombinedMembers(o, extractors, h);
    }
  }

  /** The hosts of all extractors that succeeded, each once. A failure does not keep the others from being used. */
  method ExtractHosts(o: Obj, extractors: seq<Extractor>) returns (hosts: seq<string>, errs: seq<Error>)
    requires forall e | e in extractors :: ValidExtractor(e)
    requires forall e, h | e in extractors && h in Extracted(o, e) && IsUrl(h) :: WellFormedUrl(h)
    ensures NoDuplicates(hosts)
    ensures forall h :: h in hosts <==> h in Combined(o, extractors)
    ensures forall h :: h in hosts <==> FoundBySome(o, extractors, h)
    ensures errs == [] <==> forall e | e in extractors :: Succeeds(o, e)
  {
    hide FoundBySome, PathHosts, HostsAt, AnnotationHosts;
    errs := [];
    var combined: seq<string> := [];
    for i := 0 to |extractors|
      invariant combined == Combined(o, extractors[..i])
      invariant errs == [] <==> forall e | e in extractors[..i] :: Succeeds(o, e)
    {
      assert extractors[..i + 1] == extractors[..i] + [extractors[i]];
      assert extractors[i] in extractors;
      var found, errs' := Extract(o, extractors[i]);
      if errs' != [] {
        errs := errs + errs';
        assert AllNormalised(Extracted(o, extractors[i])) == [];
      } else {
        combined := AppendHosts(combined, found);
      }
    }
    assert extractors[..|extractors|] == extractors;
    hosts := Unique(combined);
    CombinedIsFound(o, extractors);
  }
}
