/**
 * HTTP requests and responses (src/http/request.c): the method and scheme
 * tables, the URL splitter of http_request_init, the header and query
 * lists, and the payload of a response that grows by appending.
 *
 * Strings are C strings without their terminator (`string` = seq<char>
 * holding no NUL); a property argument is a `Prop`, whose `chars` is the
 * whole block its value points to (NUL included).
 */
module HttpRequest {
  import opened Wrappers
  import PD = PropertyDynamic

  const NUL: char := '\0'

  /** METH_str: the method names, indexed by the request method enumeration. */
  const Methods: seq<string> := ["GET", "POST", "PUT", "DELETE", "HEAD"]
  /** Scheme_str: index 0 is plain http, index 1 the ciphered https. */
  const Schemes: seq<string> := ["http", "https"]

  /** get_METH / get_Scheme: the table entry, or NULL outside [0, count). */
  function GetEntry(table: seq<string>, i: int): (r: Option<string>)
    ensures r.Some? <==> 0 <= i < |table|
    ensures r.Some? ==> r.value in table
  {
    if 0 <= i < |table| then Some(table[i]) else None
  }

  /** The index cmp_* returns: the first entry equal to s, or -1 when there is none. */
  function IndexOf(table: seq<string>, s: string): (r: int)
    ensures -1 <= r < |table|
    ensures r == -1 <==> s !in table
    ensures r >= 0 ==> table[r] == s && forall j :: 0 <= j < r ==> table[j] != s
  {
    if |table| == 0 then -1
    else if table[0] == s then 0
    else
      var k := IndexOf(table[1..], s);
      if k < 0 then -1 else k + 1
  }

  /** The character strncmp sees at position k: the string's, then NUL past its end. */
  function At(s: string, k: nat): char
  {
    if k < |s| then s[k] else NUL
  }

  /** strncmp(s, t, n) == 0 for C strings. */
  predicate StrnEq(s: string, t: string, n: int)
  {
    forall k: nat :: k < n ==> At(s, k) == At(t, k)
  }

  /** The index cmp_n_* returns: the first entry that strncmp finds equal to s in its first n characters, or -1. */
  function IndexOfN(table: seq<string>, s: string, n: int): (r: int)
    ensures -1 <= r < |table|
    ensures r == -1 <==> forall j :: 0 <= j < |table| ==> !StrnEq(s, table[j], n)
    ensures r >= 0 ==> StrnEq(s, table[r], n) && forall j :: 0 <= j < r ==> !StrnEq(s, table[j], n)
  {
    if |table| == 0 then -1
    else if StrnEq(s, table[0], n) then 0
    else
      var k := IndexOfN(table[1..], s, n);
      if k < 0 then -1 else k + 1
  }

  /** cmp_*: a linear search with strcmp. */
  method Cmp(table: seq<string>, s: string) returns (r: int)
    ensures r == IndexOf(table, s)
  {
    var i := 0;
    while i < |table|
      invariant 0 <= i <= |table|
      invariant forall j :: 0 <= j < i ==> table[j] != s
    {
      if table[i] == s {
        return i;
      }
      i := i + 1;
    }
    return -1;
  }

  /** cmp_n_*: a linear search with strncmp on the first n characters. */
  method CmpN(table: seq<string>, s: string, n: int) returns (r: int)
    ensures r == IndexOfN(table, s, n)
  {
    var i := 0;
    while i < |table|
      invariant 0 <= i <= |table|
      invariant forall j :: 0 <= j < i ==> !StrnEq(s, table[j], n)
    {
      if StrnEq(s, table[i], n) {
        return i;
      }
      i := i + 1;
    }
    return -1;
  }

  /** Looking a name up by its own index finds that index: both tables hold distinct names. */
  lemma {:induction false} TablesRoundTrip()
    ensures forall i :: 0 <= i < |Methods| ==> IndexOf(Methods, Methods[i]) == i
    ensures forall i :: 0 <= i < |Schemes| ==> IndexOf(Schemes, Schemes[i]) == i
    ensures forall i :: 0 <= i < |Methods| ==> GetEntry(Methods, IndexOf(Methods, Methods[i])) == Some(Methods[i])
  {
    forall i | 0 <= i < |Methods|
      ensures IndexOf(Methods, Methods[i]) == i
    {
      forall j | 0 <= j < i
        ensures Methods[j] != Methods[i]
      {
        assert |Methods[j]| != |Methods[i]| || Methods[j][0] != Methods[i][0];
      }
      FirstIndex(Methods, i);
    }
    forall i | 0 <= i < |Schemes|
      ensures IndexOf(Schemes, Schemes[i]) == i
    {
      forall j | 0 <= j < i
        ensures Schemes[j] != Schemes[i]
      {
        assert |Schemes[j]| != |Schemes[i]|;
      }
      FirstIndex(Schemes, i);
    }
  }

  /** An entry that no earlier entry equals is found at its own index. */
  lemma FirstIndex(table: seq<string>, i: nat)
    requires i < |table| && forall j :: 0 <= j < i ==> table[j] != table[i]
    ensures IndexOf(table, table[i]) == i
  {
  }

  /** Below n, strncmp equality of a C string s means t has the same character at that position. */
  lemma StrnEqAt(s: string, t: string, n: nat, k: nat)
    requires n <= |s| && NUL !in s
    requires StrnEq(s, t, n) && k < n
    ensures k < |t| && s[k] == t[k]
  {
    assert At(s, k) == At(t, k);
    assert s[k] in s;
  }

  /** For C strings, strncmp over the first n characters of s matches t exactly when s's first n characters are a prefix of t. */
  lemma {:induction false} StrnEqIsPrefix(s: string, t: string, n: nat)
    requires n <= |s| && NUL !in s && NUL !in t
    ensures StrnEq(s, t, n) <==> s[..n] <= t
  {
    if StrnEq(s, t, n) {
      if n > 0 {
        StrnEqAt(s, t, n, n - 1);
      }
      forall k | 0 <= k < n ensures s[k] == t[k] {
        StrnEqAt(s, t, n, k);
      }
      assert s[..n] == t[..n];
    }
    if s[..n] <= t {
      forall k: nat | k < n ensures At(s, k) == At(t, k) {
        assert s[..n][k] == t[k];
      }
    }
  }

  /**
   * The scheme index http_request_init computes (request.c:58):
   * cmp_n_Scheme on the whole url with n the length of the scheme text.
   */
  function SchemeIndexAsWritten(url: string, n: int): (r: int)
    ensures -1 <= r < |Schemes|
  {
    IndexOfN(Schemes, url, n)
  }

  /** The evidently intended scheme index: the scheme text must equal a table entry. */
  function SchemeIndex(schemeText: string): (r: int)
    ensures r == 0 <==> schemeText == "http"
    ensures r == 1 <==> schemeText == "https"
    ensures r == -1 <==> schemeText !in Schemes
  {
    IndexOf(Schemes, schemeText)
  }

  /** As written, a scheme "h" (any strict prefix of "http", the empty one included) is taken for http. */
  lemma SchemePrefixAccepted()
    ensures SchemeIndexAsWritten("h://x:1/", 1) == 0
    ensures SchemeIndex("h") == -1
  {
    assert StrnEq("h://x:1/", Schemes[0], 1) by {
      forall k: nat | k < 1 ensures At("h://x:1/", k) == At(Schemes[0], k) {
        assert k == 0;
      }
    }
  }

  /** Apart from the strict prefixes of "http", the written and the intended scheme index agree. */
  lemma {:induction false} SchemeIndexAgrees(url: string, n: nat)
    requires n <= |url| && NUL !in url
    requires !(url[..n] < "http")
    ensures SchemeIndexAsWritten(url, n) == SchemeIndex(url[..n])
  {
    StrnEqIsPrefix(url, Schemes[0], n);
    StrnEqIsPrefix(url, Schemes[1], n);
    var t := url[..n];
    if t <= "http" {
      assert t == "http";
    } else if t <= "https" {
      assert t == "https";
    } else {
      assert t != "http" && t != "https";
    }
  }

  /** strstr matched pat in s at index j. */
  predicate OccursAt(s: string, pat: string, j: int)
  {
    0 <= j && j + |pat| <= |s| && s[j..j + |pat|] == pat
  }

  /** strstr(s + from, pat): the first index at or after from where pat occurs, or NULL. */
  function Find(s: string, pat: string, from: nat): (r: Option<nat>)
    requires from <= |s| && |pat| > 0
    decreases |s| - from
    ensures r.Some? ==> from <= r.value && OccursAt(s, pat, r.value)
    ensures r.Some? ==> forall j :: from <= j < r.value ==> !OccursAt(s, pat, j)
    ensures r.None? ==> forall j :: from <= j ==> !OccursAt(s, pat, j)
  {
    if from + |pat| > |s| then None
    else if s[from..from + |pat|] == pat then Some(from)
    else Find(s, pat, from + 1)
  }

  /** isspace in the C locale. */
  predicate IsSpace(c: char)
  {
    c == ' ' || c == '\t' || c == '\n' || c == '\r' || c == '\U{000B}' || c == '\U{000C}'
  }

  predicate IsDigit(c: char)
  {
    '0' as int <= c as int <= '9' as int
  }

  /** The input left once sscanf has skipped leading white space. */
  function SkipSpace(s: string): (r: string)
    ensures |r| <= |s| && r == s[|s| - |r|..]
    ensures r == [] || !IsSpace(r[0])
  {
    if s != [] && IsSpace(s[0]) then SkipSpace(s[1..]) else s
  }

  /** The number of leading digits of s, at most max. */
  function LeadingDigits(s: string, max: nat): (k: nat)
    ensures k <= max && k <= |s|
    ensures forall i :: 0 <= i < k ==> IsDigit(s[i])
    ensures k < max && k < |s| ==> !IsDigit(s[k])
  {
    if max == 0 || s == [] || !IsDigit(s[0]) then 0 else 1 + LeadingDigits(s[1..], max - 1)
  }

  function DigitValue(c: char): (d: nat)
    requires IsDigit(c)
    ensures d < 10
  {
    c as int - '0' as int
  }

  /** The number a run of decimal digits spells. */
  function Value(ds: string): nat
    requires forall i :: 0 <= i < |ds| ==> IsDigit(ds[i])
  {
    if ds == [] then 0 else 10 * Value(ds[..|ds| - 1]) + DigitValue(ds[|ds| - 1])
  }

  /** The field width of "%8hu". */
  const PortWidth: nat := 8

  /**
   * sscanf(s, "%8hu", &port) == 1 and the port it stores: white space
   * skipped, then at most 8 characters of an optionally signed decimal
   * number; the value is reduced modulo 2^16 and a '-' negates it modulo
   * 2^16, as strtoul and the store into an unsigned short do. None when no
   * digit follows (sscanf returns 0 or EOF).
   */
  function ScanU16(s: string): (r: Option<nat>)
    ensures r.Some? ==> r.value < 0x1_0000
  {
    var t := SkipSpace(s);
    var signed := |t| > 0 && (t[0] == '+' || t[0] == '-');
    var body := if signed then t[1..] else t;
    var k := LeadingDigits(body, if signed then PortWidth - 1 else PortWidth);
    if k == 0 then None
    else
      var v := Value(body[..k]) % 0x1_0000;
      Some(if signed && t[0] == '-' then (0x1_0000 - v) % 0x1_0000 else v)
  }

  function Digit(d: nat): (c: char)
    requires d < 10
    ensures IsDigit(c)
  {
    ('0' as int + d) as char
  }

  /** The shortest decimal spelling of p. */
  function Decimal(p: nat): (ds: string)
    ensures |ds| >= 1 && forall i :: 0 <= i < |ds| ==> IsDigit(ds[i])
  {
    if p < 10 then [Digit(p)] else Decimal(p / 10) + [Digit(p % 10)]
  }

  lemma {:induction false} ValueOfDecimal(p: nat)
    ensures Value(Decimal(p)) == p
  {
    if p >= 10 {
      var ds := Decimal(p);
      assert ds[..|ds| - 1] == Decimal(p / 10);
      ValueOfDecimal(p / 10);
    }
  }

  lemma {:induction false} DecimalLength(p: nat, k: nat)
    requires 1 <= k && p < Pow10(k)
    ensures |Decimal(p)| <= k
  {
    if p >= 10 {
      assert k >= 2;
      DecimalLength(p / 10, k - 1);
    }
  }

  function Pow10(k: nat): (r: nat)
    ensures r >= 1
  {
    if k == 0 then 1 else 10 * Pow10(k - 1)
  }

  lemma {:induction false} LeadingDigitsOfDecimal(ds: string, rest: string, max: nat)
    requires forall i :: 0 <= i < |ds| ==> IsDigit(ds[i])
    requires |ds| <= max && (rest == [] || !IsDigit(rest[0]))
    ensures LeadingDigits(ds + rest, max) == |ds|
  {
    var s := ds + rest;
    assert forall i :: 0 <= i < |ds| ==> s[i] == ds[i];
    assert |s| > |ds| ==> s[|ds|] == rest[0];
  }

  /** sscanf on text that starts with a digit reads the leading digits, at most 8 of them, modulo 2^16. */
  lemma ScanUnsigned(s: string)
    requires s != [] && IsDigit(s[0])
    ensures LeadingDigits(s, PortWidth) >= 1
    ensures ScanU16(s) == Some(Value(s[..LeadingDigits(s, PortWidth)]) % 0x1_0000)
  {
    assert !IsSpace(s[0]);
    assert SkipSpace(s) == s;
  }

  /** A port number prints in at most five digits. */
  lemma DecimalOfPort(p: nat)
    requires p < 0x1_0000
    ensures |Decimal(p)| <= 5
  {
    assert Pow10(5) == 100000;
    DecimalLength(p, 5);
  }

  lemma ScanDecimal(p: nat, rest: string)
    requires |Decimal(p)| <= PortWidth
    requires rest == [] || !IsDigit(rest[0])
    ensures ScanU16(Decimal(p) + rest) == Some(Value(Decimal(p)) % 0x1_0000)
  {
    var ds := Decimal(p);
    var s := ds + rest;
    assert s[0] == ds[0];
    ScanUnsigned(s);
    LeadingDigitsOfDecimal(ds, rest, PortWidth);
    assert s[..|ds|] == ds;
  }

  /** The port sscanf reads back from a printed port number followed by anything but a digit. */
  lemma ScanDecimalPort(p: nat, rest: string)
    requires p < 0x1_0000
    requires rest == [] || !IsDigit(rest[0])
    ensures ScanU16(Decimal(p) + rest) == Some(p)
  {
    DecimalOfPort(p);
    ScanDecimal(p, rest);
    ValueOfDecimal(p);
    SmallModulo(p, 0x1_0000);
  }

  lemma SmallModulo(p: nat, m: nat)
    requires p < m
    ensures p % m == p
  {
  }

  /** strstr(s + from, pat) for a one-character pattern: the first index at or after from holding c, or NULL. */
  function FindChar(s: string, c: char, from: nat): (r: Option<nat>)
    requires from <= |s|
    decreases |s| - from
    ensures r.Some? ==> from <= r.value < |s| && s[r.value] == c && c !in s[from..r.value]
    ensures r.None? ==> c !in s[from..]
  {
    if from == |s| then None
    else if s[from] == c then Some(from)
    else
      var r := FindChar(s, c, from + 1);
      assert r.Some? ==> s[from..r.value] == [s[from]] + s[from + 1..r.value];
      assert s[from..] == [s[from]] + s[from + 1..];
      r
  }

  /** The three ways the url splitting of http_request_init can end before the port is scanned. */
  datatype UrlSplit =
    | NoSchemeSeparator
    | NoPortSeparator(schemeText: string)
    | Split(schemeText: string, host: string, portText: string)

  /**
   * The splitting done by http_request_init: the scheme text runs up to
   * the first "://", the host from there up to the next ':', and the port
   * text is everything after that ':'.
   */
  function SplitUrl(url: string): UrlSplit
  {
    var schEnd := Find(url, "://", 0);
    if schEnd.None? then NoSchemeSeparator
    else
      var n := schEnd.value;
      var hostEnd := FindChar(url, ':', n + 3);
      if hostEnd.None? then NoPortSeparator(url[..n])
      else Split(url[..n], url[n + 3..hostEnd.value], url[hostEnd.value + 1..])
  }

  /** The uri http_request_init keeps: the port text from its first '/' at or after i on, or NULL. */
  function UriFrom(portText: string, i: nat): Option<string>
    requires i <= |portText|
    decreases |portText| - i
  {
    if i == |portText| then None
    else if portText[i] == '/' then Some(portText[i..])
    else UriFrom(portText, i + 1)
  }

  function UriOf(portText: string): Option<string>
  {
    UriFrom(portText, 0)
  }

  lemma {:induction false} UriFromFirstSlash(portText: string, i: nat)
    requires i <= |portText|
    ensures UriFrom(portText, i) == if FindChar(portText, '/', i).None? then None else Some(portText[FindChar(portText, '/', i).value..])
    decreases |portText| - i
  {
    if i < |portText| && portText[i] != '/' {
      UriFromFirstSlash(portText, i + 1);
    }
  }

  /** The uri is NULL exactly when the port text holds no '/', and otherwise starts at its first '/'. */
  lemma UriOfFirstSlash(portText: string)
    ensures UriOf(portText).None? <==> '/' !in portText
    ensures UriOf(portText).Some? ==>
      var k := |portText| - |UriOf(portText).value|;
      0 <= k < |portText| && UriOf(portText).value == portText[k..] && portText[k] == '/' && '/' !in portText[..k]
  {
    UriFromFirstSlash(portText, 0);
    assert portText[0..] == portText;
  }

  /** SplitUrl fails for want of "://" exactly when the url has none; otherwise the scheme text ends at its first occurrence. */
  lemma SplitUrlScheme(url: string)
    ensures SplitUrl(url).NoSchemeSeparator? <==> forall j :: 0 <= j ==> !OccursAt(url, "://", j)
    ensures !SplitUrl(url).NoSchemeSeparator? ==>
      var n := |SplitUrl(url).schemeText|;
      SplitUrl(url).schemeText == url[..n] && OccursAt(url, "://", n) &&
      forall j :: 0 <= j < n ==> !OccursAt(url, "://", j)
  {
  }

  /** SplitUrl finds no port separator exactly when no ':' follows the "://". */
  lemma SplitUrlNoPort(url: string)
    requires !SplitUrl(url).NoSchemeSeparator?
    ensures SplitUrl(url).NoPortSeparator? <==> ':' !in url[|SplitUrl(url).schemeText| + 3..]
  {
  }

  /** A split url is scheme "://" host ":" port text, and the host holds no ':'. */
  lemma SplitUrlHost(url: string)
    requires SplitUrl(url).Split?
    ensures var r := SplitUrl(url);
      url == r.schemeText + "://" + r.host + ":" + r.portText && ':' !in r.host
  {
    var n := Find(url, "://", 0).value;
    var h := FindChar(url, ':', n + 3).value;
    assert url[n..n + 3] == "://";
    assert url == url[..n] + url[n..n + 3] + url[n + 3..h] + [url[h]] + url[h + 1..];
  }

  /** The uri read from a printed port followed by a path is that path, or NULL for no path. */
  lemma UriAfterPort(port: nat, path: string)
    requires path == [] || path[0] == '/'
    ensures UriOf(Decimal(port) + path) == if path == [] then None else Some(path)
  {
    var ds := Decimal(port);
    var t := ds + path;
    UriOfFirstSlash(t);
    assert '/' !in ds;
    if path != [] {
      assert t[|ds|] == '/';
      assert t[..|ds|] == ds;
      assert |UriOf(t).value| == |path|;
    } else {
      assert t == ds;
    }
  }

  /** Splitting a url put together from a scheme and a host without ':' and a port text gives those parts back. */
  lemma SplitComposed(scheme: string, host: string, portText: string)
    requires ':' !in scheme && ':' !in host
    ensures SplitUrl(scheme + "://" + host + ":" + portText) == Split(scheme, host, portText)
  {
    var url := scheme + "://" + host + ":" + portText;
    var n := |scheme|;
    var h := n + 3 + |host|;
    assert url[..n] == scheme && url[n..n + 3] == "://";
    assert url[n + 3..h] == host && url[h] == ':' && url[h + 1..] == portText;
    SchemeSeparatorFound(url, scheme);
    HostSeparatorFound(url, n + 3, host);
  }

  /** strstr finds "://" right after a scheme without ':'. */
  lemma SchemeSeparatorFound(url: string, scheme: string)
    requires ':' !in scheme && |scheme| + 3 <= |url|
    requires url[..|scheme|] == scheme && url[|scheme|..|scheme| + 3] == "://"
    ensures Find(url, "://", 0) == Some(|scheme|)
  {
    var n := |scheme|;
    assert OccursAt(url, "://", n);
    forall j | 0 <= j < n ensures !OccursAt(url, "://", j) {
      assert url[j] == scheme[j];
    }
  }

  /** strchr finds the ':' right after a host without ':'. */
  lemma HostSeparatorFound(url: string, from: nat, host: string)
    requires ':' !in host && from + |host| < |url|
    requires url[from..from + |host|] == host && url[from + |host|] == ':'
    ensures FindChar(url, ':', from) == Some(from + |host|)
  {
  }

  /**
   * A url put together from a scheme and a host without ':', a printed
   * port and a path splits back into those parts, and the port and the
   * uri are read back from the port text.
   */
  lemma SplitComposedUrl(scheme: string, host: string, port: nat, path: string)
    requires ':' !in scheme && ':' !in host && port < 0x1_0000
    requires path == [] || path[0] == '/'
    ensures SplitUrl(scheme + "://" + host + ":" + Decimal(port) + path) == Split(scheme, host, Decimal(port) + path)
    ensures ScanU16(Decimal(port) + path) == Some(port)
    ensures UriOf(Decimal(port) + path) == if path == [] then None else Some(path)
  {
    SplitComposedParts(scheme, host, Decimal(port), path);
    ScanDecimalPort(port, path);
    UriAfterPort(port, path);
  }

  /** SplitComposed with the port text given in two parts. */
  lemma SplitComposedParts(scheme: string, host: string, digits: string, path: string)
    requires ':' !in scheme && ':' !in host
    ensures SplitUrl(scheme + "://" + host + ":" + digits + path) == Split(scheme, host, digits + path)
  {
    assert scheme + "://" + host + ":" + digits + path == scheme + "://" + host + ":" + (digits + path);
    SplitComposed(scheme, host, digits + path);
  }

  lemma ExampleUrlParts()
    ensures "http://api.arrowconnect.io:80/api/v1/kronos/gateways" ==
      "http" + "://" + "api.arrowconnect.io" + ":" + "80" + "/api/v1/kronos/gateways"
  {
    ExampleUrlHead();
    assert "http://api.arrowconnect.io:80" + "/api/v1/kronos/gateways" ==
      "http://api.arrowconnect.io:80/api/v1/kronos/gateways";
  }

  lemma ExampleUrlHead()
    ensures "http" + "://" + "api.arrowconnect.io" + ":" + "80" == "http://api.arrowconnect.io:80"
  {
    assert "http" + "://" == "http://";
    assert "http://" + "api.arrowconnect.io" == "http://api.arrowconnect.io";
    assert "http://api.arrowconnect.io" + ":" + "80" == "http://api.arrowconnect.io:80";
  }

  lemma ExamplePortText()
    ensures Decimal(80) == "80"
    ensures "80/api/v1/kronos/gateways" == "80" + "/api/v1/kronos/gateways"
  {
    assert Decimal(8) == "8";
  }

  /** The http_request_init example of the test suite splits into host, port and uri as expected. */
  lemma ExampleUrl()
    ensures var url := "http://api.arrowconnect.io:80/api/v1/kronos/gateways";
      SplitUrl(url) == Split("http", "api.arrowconnect.io", "80/api/v1/kronos/gateways") &&
      ScanU16("80/api/v1/kronos/gateways") == Some(80) &&
      UriOf("80/api/v1/kronos/gateways") == Some("/api/v1/kronos/gateways") &&
      SchemeIndex("http") == 0 && GetEntry(Methods, 0) == Some("GET")
  {
    ExampleUrlParts();
    ExamplePortText();
    SplitComposedUrl("http", "api.arrowconnect.io", 80, "/api/v1/kronos/gateways");
  }

  /** A property as an argument: the block its value points to (NUL included), its size and its flags. */
  datatype Prop = Prop(chars: Option<string>, size: int, flags: set<PD.Flag>)

  /** A header or query node: a key and a value property. */
  datatype Header = Header(key: Prop, value: Prop)

  /** http_payload_t: the payload property and the payload size, kept apart from the property's own. */
  datatype Payload = Payload(buf: Prop, size: int)

  /** An all-zero payload (memset to 0): NULL buffer, size 0. */
  const NoPayload: Payload := Payload(Prop(None, 0, {}), 0)

  /** property(CONTENT_TYPE, is_const); the size of a const property is taken to be its length. */
  const ContentTypeKey: Prop := Prop(Some("Content-Type" + [NUL]), 12, {PD.Const})

  /**
   * P_COPY as dynmc_copy does it (assumed alike for every property type):
   * a non-owner is shared as it is, an owner is duplicated into a fresh
   * owned string, and allocation is taken to succeed.
   */
  function CopyProp(p: Prop): (r: Prop)
    requires PD.Owner in p.flags ==> p.chars.Some?
    ensures r.size == p.size
    ensures PD.Owner !in p.flags ==> r == p
    ensures PD.Owner in p.flags ==> r.flags == PD.OwnedString && r.chars.Some?
    ensures PD.Owner in p.flags && PD.Raw !in p.flags ==> PD.CString(r.chars.value) == PD.CString(p.chars.value)
  {
    if PD.Owner !in p.flags then p
    else if PD.Raw in p.flags then Prop(Some(PD.Strndup(p.chars.value, p.size)), p.size, PD.OwnedString)
    else Prop(Some(PD.Strdup(p.chars.value)), p.size, PD.OwnedString)
  }

  /** A copyable property: an owner has a value to duplicate. */
  predicate Copyable(p: Prop)
  {
    PD.Owner in p.flags ==> p.chars.Some?
  }

  /** http_request_first_header over the list as a sequence: the index of its head node, NULL for an empty list. */
  function FirstHeader(hs: seq<Header>): (r: Option<nat>)
    ensures r.Some? ==> r.value < |hs|
  {
    if |hs| == 0 then None else Some(0)
  }

  /** http_request_next_header: the node after h, NULL after the last node and for a NULL h. */
  function NextHeader(hs: seq<Header>, h: Option<nat>): (r: Option<nat>)
    requires h.Some? ==> h.value < |hs|
    ensures r.Some? ==> r.value < |hs|
  {
    if h.None? then None
    else if h.value + 1 < |hs| then Some(h.value + 1)
    else None
  }

  /** The node reached after k steps of first_header then next_header. */
  function Walk(hs: seq<Header>, k: nat): (r: Option<nat>)
    ensures r.Some? ==> r.value < |hs|
  {
    if k == 0 then FirstHeader(hs) else NextHeader(hs, Walk(hs, k - 1))
  }

  /** Iterating from the first header visits every node once, in the order added, then stops. */
  lemma {:induction false} WalkVisitsInOrder(hs: seq<Header>, k: nat)
    ensures Walk(hs, k) == if k < |hs| then Some(k) else None
  {
    if k > 0 {
      WalkVisitsInOrder(hs, k - 1);
    }
  }

  /** The request of src/http/request.h as far as request.c touches it. */
  class Request {
    var meth: Option<string>
    var scheme: Option<string>
    var isCipher: int
    var host: Option<string>
    var port: nat
    var uri: Option<string>
    var isCorrupt: bool
    var isChunked: bool
    var headers: seq<Header>
    var queries: seq<Header>
    var payload: Payload
    var contentType: Option<Header>

    /** A request in zeroed storage, as the test's static request starts out. */
    constructor ()
      ensures meth.None? && scheme.None? && isCipher == 0 && host.None? && port == 0 && uri.None?
      ensures !isCorrupt && !isChunked && headers == [] && queries == [] && payload == NoPayload && contentType.None?
    {
      meth := None;
      scheme := None;
      isCipher := 0;
      host := None;
      port := 0;
      uri := None;
      isCorrupt := false;
      isChunked := false;
      headers := [];
      queries := [];
      payload := NoPayload;
      contentType := None;
    }

    /** The url split and its port parsed: http_request_init runs to its end. */
    static predicate Parsed(url: string)
    {
      SplitParsed(SplitUrl(url))
    }

    /** The url's parts are all read: scheme, host and a port sscanf accepts. */
    static predicate SplitParsed(split: UrlSplit)
    {
      split.Split? && ScanU16(split.portText).Some?
    }

    /**
     * http_request_init: the method name from the table (NULL when out of
     * range), then the url split step by step; each failing step marks the
     * request corrupt and returns, leaving the later fields as they were.
     * An unknown scheme leaves the scheme NULL and is_cipher -1 without
     * marking the request corrupt.
     */
    method Init(m: int, url: string)
      modifies this
      ensures meth == GetEntry(Methods, m)
      ensures isCorrupt == !Parsed(url)
      ensures SplitUrl(url).NoSchemeSeparator? ==> scheme == old(scheme) && isCipher == old(isCipher)
      ensures !SplitUrl(url).NoSchemeSeparator? ==>
        isCipher == SchemeIndex(SplitUrl(url).schemeText) && scheme == GetEntry(Schemes, isCipher)
      ensures SplitUrl(url).Split? ==> host == Some(SplitUrl(url).host)
      ensures !SplitUrl(url).Split? ==> host == old(host)
      ensures Parsed(url) ==>
        port == ScanU16(SplitUrl(url).portText).value && uri == UriOf(SplitUrl(url).portText) &&
        headers == [] && queries == [] && !isChunked && payload == NoPayload && contentType.None?
      ensures !Parsed(url) ==>
        port == old(port) && uri == old(uri) && headers == old(headers) && queries == old(queries) &&
        isChunked == old(isChunked) && payload == old(payload) && contentType == old(contentType)
    {
      meth := GetEntry(Methods, m);
      ReadSplit(SplitUrl(url));
    }

    /** The steps of http_request_init after the method, on the url's parts. */
    method ReadSplit(split: UrlSplit)
      modifies this
      ensures meth == old(meth)
      ensures isCorrupt == !SplitParsed(split)
      ensures split.NoSchemeSeparator? ==> scheme == old(scheme) && isCipher == old(isCipher)
      ensures !split.NoSchemeSeparator? ==>
        isCipher == SchemeIndex(split.schemeText) && scheme == GetEntry(Schemes, isCipher)
      ensures split.Split? ==> host == Some(split.host)
      ensures !split.Split? ==> host == old(host)
      ensures SplitParsed(split) ==>
        port == ScanU16(split.portText).value && uri == UriOf(split.portText) &&
        headers == [] && queries == [] && !isChunked && payload == NoPayload && contentType.None?
      ensures !SplitParsed(split) ==>
        port == old(port) && uri == old(uri) && headers == old(headers) && queries == old(queries) &&
        isChunked == old(isChunked) && payload == old(payload) && contentType == old(contentType)
    {
      if split.NoSchemeSeparator? {
        isCorrupt := true;
      } else {
        var sch := SchemeIndex(split.schemeText);
        scheme := GetEntry(Schemes, sch);
        isCipher := sch;
        ReadHost(split);
      }
    }

    /** The steps of http_request_init after the scheme: the host, then the port. */
    method ReadHost(split: UrlSplit)
      requires !split.NoSchemeSeparator?
      modifies this
      ensures meth == old(meth) && scheme == old(scheme) && isCipher == old(isCipher)
      ensures isCorrupt == !SplitParsed(split)
      ensures split.Split? ==> host == Some(split.host)
      ensures !split.Split? ==> host == old(host)
      ensures SplitParsed(split) ==>
        port == ScanU16(split.portText).value && uri == UriOf(split.portText) &&
        headers == [] && queries == [] && !isChunked && payload == NoPayload && contentType.None?
      ensures !SplitParsed(split) ==>
        port == old(port) && uri == old(uri) && headers == old(headers) && queries == old(queries) &&
        isChunked == old(isChunked) && payload == old(payload) && contentType == old(contentType)
    {
      if split.NoPortSeparator? {
        isCorrupt := true;
      } else {
        host := Some(split.host);
        ReadPort(split.portText);
      }
    }

    /**
     * The end of http_request_init, from the text after the host's ':' on:
     * the port, then the uri and the empty lists and payload.
     */
    method ReadPort(portText: string)
      modifies this
      ensures isCorrupt == ScanU16(portText).None?
      ensures ScanU16(portText).Some? ==>
        port == ScanU16(portText).value && uri == UriOf(portText) &&
        headers == [] && queries == [] && !isChunked && payload == NoPayload && contentType.None?
      ensures ScanU16(portText).None? ==>
        port == old(port) && uri == old(uri) && headers == old(headers) && queries == old(queries) &&
        isChunked == old(isChunked) && payload == old(payload) && contentType == old(contentType)
      ensures meth == old(meth) && scheme == old(scheme) && isCipher == old(isCipher) && host == old(host)
    {
      StorePort(ScanU16(portText), UriOf(portText));
    }

    /** The port and uri fields once the port text is scanned (None when sscanf fails). */
    method StorePort(p: Option<nat>, u: Option<string>)
      modifies this
      ensures isCorrupt == p.None?
      ensures p.Some? ==>
        port == p.value && uri == u &&
        headers == [] && queries == [] && !isChunked && payload == NoPayload && contentType.None?
      ensures p.None? ==>
        port == old(port) && uri == old(uri) && headers == old(headers) && queries == old(queries) &&
        isChunked == old(isChunked) && payload == old(payload) && contentType == old(contentType)
      ensures meth == old(meth) && scheme == old(scheme) && isCipher == old(isCipher) && host == old(host)
    {
      if p.None? {
        isCorrupt := true;
        return;
      }
      isCorrupt := false;
      port := p.value;
      uri := u;
      headers := [];
      queries := [];
      isChunked := false;
      payload := NoPayload;
      contentType := None;
    }

    /**
     * http_request_close: every property released (a released property reads
     * as empty), every header and query node released, size 0. The lists
     * become empty here; the C heads are left pointing at the freed nodes.
     */
    method Close()
      modifies this
      ensures meth.None? && scheme.None? && host.None? && uri.None?
      ensures payload == NoPayload && headers == [] && queries == [] && contentType.None?
      ensures isCipher == old(isCipher) && port == old(port) && isCorrupt == old(isCorrupt) && isChunked == old(isChunked)
    {
      meth := None;
      scheme := None;
      host := None;
      uri := None;
      payload := NoPayload;
      headers := [];
      queries := [];
      contentType := None;
    }

    /** http_request_add_header: the node (taking the properties as they are) goes at the tail. */
    method AddHeader(key: Prop, value: Prop)
      modifies this
      ensures headers == old(headers) + [Header(key, value)]
      ensures queries == old(queries) && payload == old(payload) && contentType == old(contentType)
    {
      headers := headers + [Header(key, value)];
    }

    /** http_request_add_query: the node goes at the tail of the query list. */
    method AddQuery(key: Prop, value: Prop)
      modifies this
      ensures queries == old(queries) + [Header(key, value)]
      ensures headers == old(headers) && payload == old(payload) && contentType == old(contentType)
    {
      queries := queries + [Header(key, value)];
    }

    /** http_request_set_content_type: key "Content-Type", the given value taken as it is. */
    method SetContentType(value: Prop)
      modifies this
      ensures contentType == Some(Header(ContentTypeKey, value))
      ensures headers == old(headers) && queries == old(queries) && payload == old(payload)
    {
      contentType := Some(Header(ContentTypeKey, value));
    }

    /** http_request_set_payload: the size is the property's, the buffer a P_COPY of it. */
    method SetPayload(p: Prop)
      requires Copyable(p)
      modifies this
      ensures payload == Payload(CopyProp(p), p.size)
      ensures headers == old(headers) && queries == old(queries) && contentType == old(contentType)
    {
      payload := Payload(payload.buf, p.size);
      payload := Payload(CopyProp(p), payload.size);
    }
  }

  /** The size add_payload and set_payload work with: the one given, or the property's own when it is 0. */
  function GivenSize(p: Prop, size: nat): int
  {
    if size == 0 then p.size else size
  }

  /** A payload buffer add_payload grows: flags exactly is_dynamic, taken to be PROPERTY_DYNAMIC_TAG | is_owner. */
  predicate Growable(pl: Payload)
  {
    pl.buf.flags == PD.OwnedString
  }

  /** The current payload text: the first `size` characters of the buffer. */
  predicate HasText(pl: Payload)
  {
    pl.buf.chars.Some? && 0 <= pl.size <= |pl.buf.chars.value|
  }

  function PayloadText(pl: Payload): string
    requires HasText(pl)
  {
    pl.buf.chars.value[..pl.size]
  }

  /** What add_payload needs to copy from its argument: `size` characters of a value it has. */
  predicate CanAdd(pl: Payload, p: Prop, size: nat)
  {
    Copyable(p) &&
    (pl.buf.chars.Some? && Growable(pl) ==> HasText(pl) && p.chars.Some? && 0 <= GivenSize(p, size) <= |p.chars.value|)
  }

  /**
   * http_response_add_payload as written: an empty buffer takes a copy of
   * the payload and the size is left alone; a growable buffer is
   * reallocated to exactly the new size, the payload copied behind the old
   * text, and the terminator written at index size; any other buffer is
   * left as it is. The second component is where the terminator goes.
   */
  function AppendPayloadAsWritten(pl: Payload, p: Prop, size: nat): (r: (Payload, Option<int>))
    requires CanAdd(pl, p, size)
    ensures pl.buf.chars.None? ==> r == (Payload(CopyProp(p), pl.size), None)
    ensures pl.buf.chars.Some? && !Growable(pl) ==> r == (pl, None)
    ensures pl.buf.chars.Some? && Growable(pl) ==>
      r.0.size == pl.size + GivenSize(p, size) && r.0.buf.chars.Some? && |r.0.buf.chars.value| == r.0.size && r.1 == Some(r.0.size)
  {
    var sz := GivenSize(p, size);
    if pl.buf.chars.None? then (Payload(CopyProp(p), pl.size), None)
    else if !Growable(pl) then (pl, None)
    else
      var total := pl.size + sz;
      var block := pl.buf.chars.value[..pl.size] + p.chars.value[..sz];
      (Payload(Prop(Some(block), pl.buf.size, pl.buf.flags), total), Some(total))
  }

  /**
   * http_response_add_payload as evidently intended: the empty branch also
   * records the size, and the block has room for the terminator.
   */
  function AppendPayload(pl: Payload, p: Prop, size: nat): (r: Payload)
    requires CanAdd(pl, p, size)
    ensures pl.buf.chars.None? ==> r == Payload(CopyProp(p), GivenSize(p, size))
    ensures pl.buf.chars.Some? && !Growable(pl) ==> r == pl
    ensures pl.buf.chars.Some? && Growable(pl) ==>
      Growable(r) && HasText(r) && PayloadText(r) == PayloadText(pl) + p.chars.value[..GivenSize(p, size)] &&
      r.size < |r.buf.chars.value| && r.buf.chars.value[r.size] == NUL
  {
    var sz := GivenSize(p, size);
    if pl.buf.chars.None? then Payload(CopyProp(p), sz)
    else if !Growable(pl) then pl
    else
      var block := pl.buf.chars.value[..pl.size] + p.chars.value[..sz] + [NUL];
      assert block[..pl.size + sz] == pl.buf.chars.value[..pl.size] + p.chars.value[..sz];
      Payload(Prop(Some(block), pl.buf.size, pl.buf.flags), pl.size + sz)
  }

  /** Added chunk by chunk, a response payload holds the chunks one after the other. */
  lemma {:induction false} AppendPayloadAccumulates(pl: Payload, chunks: seq<string>)
    requires Growable(pl) && HasText(pl)
    ensures AddAll(pl, chunks).buf.chars.Some? && Growable(AddAll(pl, chunks)) && HasText(AddAll(pl, chunks))
    ensures PayloadText(AddAll(pl, chunks)) == PayloadText(pl) + Concat(chunks)
    decreases |chunks|
  {
    if chunks != [] {
      var next := AppendPayload(pl, Chunk(chunks[0]), |chunks[0]|);
      assert Concat(chunks) == chunks[0] + Concat(chunks[1..]);
      AppendPayloadAccumulates(next, chunks[1..]);
    }
  }

  /** A received chunk as add_payload gets it: a freshly allocated owned string of that text. */
  function Chunk(text: string): Prop
  {
    Prop(Some(text + [NUL]), |text|, PD.OwnedString)
  }

  function Concat(chunks: seq<string>): string
  {
    if chunks == [] then [] else chunks[0] + Concat(chunks[1..])
  }

  /** The payload after adding each chunk in turn with its own length. */
  function AddAll(pl: Payload, chunks: seq<string>): Payload
    requires Growable(pl) && HasText(pl)
    decreases |chunks|
  {
    if chunks == [] then pl
    else
      var c := Chunk(chunks[0]);
      assert CanAdd(pl, c, |chunks[0]|);
      var next := AppendPayload(pl, c, |chunks[0]|);
      if HasText(next) && Growable(next) then AddAll(next, chunks[1..]) else next
  }

  /**
   * As written, two chunks "abc" then "de" added to an empty response
   * payload leave "de": the first add never set the size. The terminator
   * of the second add is written at the block's length, one past its end.
   */
  lemma AppendPayloadAsWrittenLosesText()
    ensures var first := AppendPayloadAsWritten(NoPayload, Chunk("abc"), 0).0;
      first.size == 0 &&
      var second := AppendPayloadAsWritten(first, Chunk("de"), 0);
      HasText(second.0) && PayloadText(second.0) == "de" &&
      second.1 == Some(|second.0.buf.chars.value|)
    ensures var first := AppendPayload(NoPayload, Chunk("abc"), 0);
      HasText(AppendPayload(first, Chunk("de"), 0)) && PayloadText(AppendPayload(first, Chunk("de"), 0)) == "abcde"
  {
    var c := Chunk("abc");
    PD.StrLenAt(c.chars.value, 3);
    assert CopyProp(c).chars.value == "abc" + [NUL];
    var d := Chunk("de");
    var first := AppendPayloadAsWritten(NoPayload, c, 0).0;
    assert first.buf.chars.value[..0] + d.chars.value[..2] == "de";
    var good := AppendPayload(NoPayload, c, 0);
    assert PayloadText(good) == "abc";
    assert d.chars.value[..2] == "de";
  }

  /** The response of src/http/response.h as far as request.c touches it. */
  class Response {
    var payload: Payload
    var headers: seq<Header>
    var contentType: Option<Header>

    constructor ()
      ensures payload == NoPayload && headers == [] && contentType.None?
    {
      payload := NoPayload;
      headers := [];
      contentType := None;
    }

    /**
     * http_response_free: the payload released with size 0, every header node
     * released. The list becomes empty here; the C head is left dangling.
     */
    method Free()
      modifies this
      ensures payload == NoPayload && headers == [] && contentType.None?
    {
      payload := NoPayload;
      headers := [];
      contentType := None;
    }

    /** http_response_add_header: a node holding copies of key and value goes at the tail. */
    method AddHeader(key: Prop, value: Prop)
      requires Copyable(key) && Copyable(value)
      modifies this
      ensures headers == old(headers) + [Header(CopyProp(key), CopyProp(value))]
      ensures payload == old(payload) && contentType == old(contentType)
    {
      headers := headers + [Header(CopyProp(key), CopyProp(value))];
    }

    /** http_response_set_content_type: key "Content-Type", value a copy of the one given. */
    method SetContentType(value: Prop)
      requires Copyable(value)
      modifies this
      ensures contentType == Some(Header(ContentTypeKey, CopyProp(value)))
      ensures payload == old(payload) && headers == old(headers)
    {
      contentType := Some(Header(ContentTypeKey, CopyProp(value)));
    }

    /** http_response_set_payload: size the one given (the property's own when 0), buffer a copy. */
    method SetPayload(p: Prop, size: nat)
      requires Copyable(p)
      modifies this
      ensures payload == Payload(CopyProp(p), GivenSize(p, size))
      ensures headers == old(headers) && contentType == old(contentType)
    {
      var sz := if size == 0 then p.size else size;
      payload := Payload(payload.buf, sz);
      payload := Payload(CopyProp(p), payload.size);
    }

    /**
     * http_response_add_payload, with the size recorded in the empty
     * branch and room for the terminator (see AppendPayloadAsWritten).
     * `released` tells whether the payload argument was freed, which happens
     * after a successful append of an is_dynamic argument.
     */
    method AddPayload(p: Prop, size: nat) returns (released: bool)
      requires CanAdd(payload, p, size)
      modifies this
      ensures payload == AppendPayload(old(payload), p, size)
      ensures released <==> old(payload.buf.chars).Some? && Growable(old(payload)) && p.flags == PD.OwnedString
      ensures headers == old(headers) && contentType == old(contentType)
    {
      var sz := if size == 0 then p.size else size;
      released := false;
      if payload.buf.chars.None? {
        payload := Payload(CopyProp(p), sz);
        return;
      }
      if payload.buf.flags != PD.OwnedString {
        return;
      }
      var old_size := payload.size;
      var block := payload.buf.chars.value[..old_size];
      payload := Payload(payload.buf, old_size + sz);
      block := block + p.chars.value[..sz];
      block := block + [NUL];
      payload := Payload(Prop(Some(block), payload.buf.size, payload.buf.flags), payload.size);
      released := p.flags == PD.OwnedString;
    }
  }
}
