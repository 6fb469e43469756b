/** Presigned upload URLs (storage/presigned.py): what is signed is what the URL asks for. */
module PresignedUrl {
  import opened Prelude
  import opened Strings

  /** Text stands for its UTF-8 bytes, one character each. */
  type Text = s: string | forall i :: 0 <= i < |s| ==> s[i] as int < 256

  /* ---------- percent-encoding (sections 2.1 and 2.3 of RFC 3986) ---------- */

  predicate IsUnreserved(c: char) { 'A' <= c <= 'Z' || 'a' <= c <= 'z' || '0' <= c <= '9' || c in "-._~" }

  const HEX_DIGITS := "0123456789ABCDEF"

  function QuoteByte(c: char, safe: string): string
    requires c as int < 256
  {
    if IsUnreserved(c) || c in safe then [c] else ['%', HEX_DIGITS[c as int / 16], HEX_DIGITS[c as int % 16]]
  }

  /** urllib.parse.quote. */
  function Quote(s: Text, safe: string): string {
    if s == "" then "" else QuoteByte(s[0], safe) + Quote(s[1..], safe)
  }

  function Decode(s: string): string
    decreases |s|
  {
    if s == "" then ""
    else if |s| >= 3 && s[0] == '%' && HexValue(s[1]).Some? && HexValue(s[2]).Some?
    then [(HexValue(s[1]).value * 16 + HexValue(s[2]).value) as char] + Decode(s[3..])
    else [s[0]] + Decode(s[1..])
  }

  lemma HexRoundTrip(n: nat)
    requires n < 256
    ensures HexValue(HEX_DIGITS[n / 16]) == Some(n / 16) && HexValue(HEX_DIGITS[n % 16]) == Some(n % 16)
  {
  }

  lemma DecodeByte(c: char, safe: string, t: string)
    requires c as int < 256 && '%' !in safe
    ensures Decode(QuoteByte(c, safe) + t) == [c] + Decode(t)
  {
    var q := QuoteByte(c, safe);
    HexRoundTrip(c as int);
    hide HexValue;
    assert (q + t)[|q|..] == t;
  }

  lemma {:induction false} DecodeOfQuote(s: Text, safe: string)
    requires '%' !in safe
    ensures Decode(Quote(s, safe)) == s
  {
    hide Decode, QuoteByte;
    if s == "" {
      DecodePlain("");
    } else {
      DecodeOfQuote(s[1..], safe);
      DecodeByte(s[0], safe, Quote(s[1..], safe));
      assert s == [s[0]] + s[1..];
    }
  }

  lemma {:induction false} QuotedCharacters(s: Text, safe: string, c: char)
    requires c in Quote(s, safe)
    ensures IsUnreserved(c) || c in safe || c == '%'
  {
    if s != "" && c in Quote(s[1..], safe) {
      QuotedCharacters(s[1..], safe, c);
    } else {
      assert c in QuoteByte(s[0], safe);
      assert forall d :: d in HEX_DIGITS ==> IsUnreserved(d);
    }
  }

  /** Text without escapes or reserved characters decodes to itself. */
  lemma {:induction false} DecodePlain(s: string)
    requires '%' !in s
    ensures Decode(s) == s
  {
    if s != "" {
      assert s[0] in s;
      assert forall c :: c in s[1..] ==> c in s;
      DecodePlain(s[1..]);
    }
  }

  /* ---------- the query ---------- */

  type Pair = (Text, Text)

  /** Comparison of strings by code point. */
  predicate Less(a: string, b: string) {
    b != "" && (a == "" || a[0] < b[0] || (a[0] == b[0] && Less(a[1..], b[1..])))
  }

  function Insert(p: Pair, sorted: seq<Pair>): (r: seq<Pair>) {
    if sorted == [] || !Less(sorted[0].0, p.0) then [p] + sorted else [sorted[0]] + Insert(p, sorted[1..])
  }

  /** sorted(params.items()), for distinct keys. */
  function Sorted(params: seq<Pair>): seq<Pair> {
    if params == [] then [] else Insert(params[0], Sorted(params[1..]))
  }

  /** No key is less than the one before it. */
  predicate InOrder(params: seq<Pair>) { |params| <= 1 || (!Less(params[1].0, params[0].0) && InOrder(params[1..])) }

  lemma {:induction false} LessIsAsymmetric(a: string, b: string)
    requires Less(a, b)
    ensures !Less(b, a)
  {
    if a != "" && a[0] == b[0] {
      LessIsAsymmetric(a[1..], b[1..]);
    }
  }

  lemma {:induction false} InsertKeepsOrder(p: Pair, sorted: seq<Pair>)
    requires InOrder(sorted)
    ensures InOrder(Insert(p, sorted))
    ensures Insert(p, sorted)[0] == p || (sorted != [] && Insert(p, sorted)[0] == sorted[0])
  {
    if sorted != [] && Less(sorted[0].0, p.0) {
      InsertKeepsOrder(p, sorted[1..]);
      LessIsAsymmetric(sorted[0].0, p.0);
      hide Less;
      assert Insert(p, sorted)[1..] == Insert(p, sorted[1..]);
    } else {
      hide Less;
      assert ([p] + sorted)[1..] == sorted;
    }
  }

  lemma {:induction false} InsertAddsOne(p: Pair, sorted: seq<Pair>)
    ensures multiset(Insert(p, sorted)) == multiset(sorted) + multiset{p}
  {
    hide Less;
    if sorted != [] && Less(sorted[0].0, p.0) {
      InsertAddsOne(p, sorted[1..]);
      assert sorted == [sorted[0]] + sorted[1..];
    }
  }

  lemma {:induction false} SortedKeeps(params: seq<Pair>)
    ensures InOrder(Sorted(params)) && multiset(Sorted(params)) == multiset(params)
  {
    if params != [] {
      SortedKeeps(params[1..]);
      InsertKeepsOrder(params[0], Sorted(params[1..]));
      InsertAddsOne(params[0], Sorted(params[1..]));
      assert params == [params[0]] + params[1..];
    }
  }

  function EncodePair(p: Pair): string { Quote(p.0, "") + "=" + Quote(p.1, "") }

  function EncodePairs(params: seq<Pair>): seq<string> { Map(EncodePair, params) }

  function ParsePair(part: string): (string, string) {
    var n := Cut(part, "=");
    (Decode(part[..n]), if n < |part| then Decode(part[n + 1..]) else "")
  }

  function ParsePairs(parts: seq<string>): seq<(string, string)> { Map(ParsePair, parts) }

  function ParseQuery(query: string): seq<(string, string)> { ParsePairs(Split(query, '&')) }

  lemma NotQuoted(s: Text, c: char)
    requires c == '&' || c == '='
    ensures c !in Quote(s, "")
  {
    hide Quote;
    if c in Quote(s, "") {
      QuotedCharacters(s, "", c);
    }
  }

  lemma PairRoundTrip(p: Pair)
    ensures ParsePair(EncodePair(p)) == p && '&' !in EncodePair(p)
  {
    hide Quote, Decode, Cut;
    var k, v := Quote(p.0, ""), Quote(p.1, "");
    NotQuoted(p.0, '=');
    NotQuoted(p.0, '&');
    NotQuoted(p.1, '&');
    DecodeOfQuote(p.0, "");
    DecodeOfQuote(p.1, "");
    CutPair(k, v);
  }

  lemma CutPair(k: string, v: string)
    requires '=' !in k
    ensures Cut(k + "=" + v, "=") == |k| && (k + "=" + v)[..|k|] == k && (k + "=" + v)[|k| + 1..] == v
  {
    hide Cut;
    CutAt(k + "=" + v, "=", |k|);
  }

  /* ---------- the URL and its signature ---------- */

  datatype Config = Config(region: Text, bucket: Text, endpoint: string, accessKey: Text, secret: Text, pathStyle: bool)

  /** The moment of signing, as printed: eight digits of date and six of time. */
  datatype Moment = Moment(date: Text, time: Text)

  predicate IsMoment(m: Moment) { |m.date| == 8 && |m.time| == 6 }

  /** SHA-256 in hexadecimal, HMAC, and HMAC in hexadecimal. */
  datatype Crypto = Crypto(sha256: string -> string, hmac: (string, string) -> string,
      hexHmac: (string, string) -> string)

  predicate IsHex(s: string) { forall i :: 0 <= i < |s| ==> HexValue(s[i]).Some? }

  ghost predicate PrintsHex(c: Crypto) { forall k: string, m: string :: IsHex(c.hexHmac(k, m)) }

  const ALGORITHM: Text := "AWS4-HMAC-SHA256"

  function AmzDate(m: Moment): Text { m.date + "T" + m.time + "Z" }

  function Scope(date: string, region: string): string { date + "/" + region + "/s3/aws4_request" }

  function Credential(cfg: Config, m: Moment): Text { cfg.accessKey + "/" + Scope(m.date, cfg.region) }

  const HOST: Text := "host"
  const UNSIGNED: Text := "UNSIGNED-PAYLOAD"
  const ALGORITHM_KEY: Text := "X-Amz-Algorithm"
  const CREDENTIAL_KEY: Text := "X-Amz-Credential"
  const DATE_KEY: Text := "X-Amz-Date"
  const EXPIRES_KEY: Text := "X-Amz-Expires"
  const HEADERS_KEY: Text := "X-Amz-SignedHeaders"
  const PAYLOAD_KEY: Text := "X-Amz-ContentSha256"

  /** The parameters in the order they are written down, which is not the order they are sorted into. */
  function Params(cfg: Config, m: Moment, expires: Text): (r: seq<Pair>)
    ensures |r| == 6
  {
    [(ALGORITHM_KEY, ALGORITHM), (CREDENTIAL_KEY, Credential(cfg, m)), (DATE_KEY, AmzDate(m)),
     (EXPIRES_KEY, expires), (HEADERS_KEY, HOST), (PAYLOAD_KEY, UNSIGNED)]
  }

  function CanonicalQuery(cfg: Config, m: Moment, expires: Text): string {
    Join(EncodePairs(Sorted(Params(cfg, m, expires))), '&')
  }

  function Line(text: string, rest: string): string { text + ['\n'] + rest }

  /** The method, the path, the query, the one header with its newline, the names of the headers, the payload. */
  function CanonicalRequest(path: string, query: string, host: string): string {
    Line("PUT", Line(path, Line(query, Line("host:" + host, Line("", Line("host", "UNSIGNED-PAYLOAD"))))))
  }

  function Signature(c: Crypto, cfg: Config, date: string, amzDate: string, request: string): string {
    var key := c.hmac(c.hmac(c.hmac(c.hmac("AWS4" + cfg.secret, date), cfg.region), "s3"), "aws4_request");
    c.hexHmac(key, Line(ALGORITHM, Line(amzDate, Line(Scope(date, cfg.region), c.sha256(request)))))
  }

  /** The endpoint without scheme and trailing slashes, the way the code takes them off. */
  function BareHost(endpoint: string): string { StripRight(Without(Without(endpoint, "https://"), "http://"), "/") }

  function Host(cfg: Config): string {
    if cfg.pathStyle then BareHost(cfg.endpoint) else cfg.bucket + "." + BareHost(cfg.endpoint)
  }

  function CanonicalUri(cfg: Config, key: Text): string {
    if cfg.pathStyle then "/" + cfg.bucket + "/" + Quote(key, "/") else "/" + Quote(key, "/")
  }

  function Base(cfg: Config, key: Text): string {
    if cfg.pathStyle then StripRight(cfg.endpoint, "/") + "/" + cfg.bucket + "/" + Quote(key, "/")
    else (if "https://" <= cfg.endpoint then "https" else "http") + "://" + Host(cfg) + CanonicalUri(cfg, key)
  }

  function SignatureOf(c: Crypto, cfg: Config, key: Text, expires: Text, m: Moment): string {
    Signature(c, cfg, m.date, AmzDate(m),
              CanonicalRequest(CanonicalUri(cfg, key), CanonicalQuery(cfg, m, expires), Host(cfg)))
  }

  function Signed(query: string, signature: string): string { query + "&X-Amz-Signature=" + signature }

  function PutUrl(c: Crypto, cfg: Config, key: Text, expires: Text, m: Moment): string {
    Base(cfg, key) + "?" + Signed(CanonicalQuery(cfg, m, expires), SignatureOf(c, cfg, key, expires, m))
  }

  /* ---------- reading the query back ---------- */

  const SIGNATURE := "X-Amz-Signature"

  lemma HexIsPlain(s: string, c: char)
    requires IsHex(s) && c in s
    ensures HexValue(c).Some?
  {
  }

  lemma SignaturePart(signature: string)
    requires IsHex(signature)
    ensures var part := SIGNATURE + "=" + signature; '&' !in part && ParsePair(part) == (SIGNATURE, signature)
  {
    hide Decode, Cut;
    var part := SIGNATURE + "=" + signature;
    CutPair(SIGNATURE, signature);
    DecodePlain(SIGNATURE);
    if '%' in signature { HexIsPlain(signature, '%'); }
    if '&' in signature { HexIsPlain(signature, '&'); }
    DecodePlain(signature);
  }

  /** Splitting the signed query gives the encoded parameters and the signature, and decoding gives them back. */
  lemma SignedQuery(params: seq<Pair>, signature: string)
    requires IsHex(signature) && params != []
    ensures var query := Signed(Join(EncodePairs(params), '&'), signature);
            && Split(query, '&') == EncodePairs(params) + [SIGNATURE + "=" + signature]
            && ParseQuery(query) == params + [(SIGNATURE, signature)]
  {
    hide EncodePair, ParsePair, Split, Join, IsHex;
    var encoded, last := EncodePairs(params), SIGNATURE + "=" + signature;
    var parts := encoded + [last];
    JoinOneMore(encoded, last, '&');
    assert Signed(Join(encoded, '&'), signature) == Join(parts, '&');
    SignaturePart(signature);
    forall i | 0 <= i < |parts|
      ensures '&' !in parts[i] && ParsePair(parts[i]) == (params + [(SIGNATURE, signature)])[i]
    {
      if i < |params| {
        PairRoundTrip(params[i]);
      }
    }
    SplitOfJoin(parts, '&');
    assert ParsePairs(parts) == params + [(SIGNATURE, signature)];
  }

  /** The query of a presigned URL parses to the six parameters, sorted by key, and then the signature. */
  lemma QueryRoundTrip(cfg: Config, m: Moment, expires: Text, signature: string)
    requires IsHex(signature)
    ensures var params := Sorted(Params(cfg, m, expires));
            && ParseQuery(Signed(CanonicalQuery(cfg, m, expires), signature)) == params + [(SIGNATURE, signature)]
            && InOrder(params) && multiset(params) == multiset(Params(cfg, m, expires)) && |params| == 6
  {
    hide Sorted, EncodePairs, Join, ParseQuery, IsHex, InOrder;
    SortedKeeps(Params(cfg, m, expires));
    var params := Sorted(Params(cfg, m, expires));
    assert |multiset(params)| == |params| && |multiset(Params(cfg, m, expires))| == 6;
    SignedQuery(params, signature);
  }

  /* ---------- reading the URL back (section 3 of RFC 3986) ---------- */

  datatype Url = Url(scheme: string, authority: string, path: string, query: Option<string>)

  /** What follows scheme:// in a URL. */
  function Hierarchical(scheme: string, rest: string): Url {
    var a := Cut(rest, "/?#");
    var p := rest[a..];
    var n := Cut(p, "?#");
    Url(scheme, rest[..a], p[..n],
        if n < |p| && p[n] == '?' then Some(p[n + 1..][..Cut(p[n + 1..], "#")]) else None)
  }

  /** The request made of a URL; none unless the URL is absolute, with one of the schemes of HTTP. */
  function ParseUrl(s: string): Option<Url> {
    if "https://" <= s then Some(Hierarchical("https", s[8..]))
    else if "http://" <= s then Some(Hierarchical("http", s[7..]))
    else None
  }

  predicate Free(s: string, chars: string) { forall i :: 0 <= i < |s| ==> s[i] !in chars }

  lemma CutConcat(p: string, rest: string, stops: string)
    requires Free(p, stops) && (rest != "" ==> rest[0] in stops)
    ensures Cut(p + rest, stops) == |p| && (p + rest)[..|p|] == p && (p + rest)[|p|..] == rest
  {
    hide Cut;
    CutAt(p + rest, stops, |p|);
  }

  lemma SchemeOf(scheme: string, rest: string)
    requires scheme == "http" || scheme == "https"
    ensures var s := scheme + ("://" + rest);
            ParseUrl(s) == Some(Hierarchical(scheme, rest)) && ("https://" <= s <==> scheme == "https")
  {
    hide Hierarchical;
    var s := scheme + ("://" + rest);
    if scheme == "https" {
      assert s[..8] == "https://" && s[8..] == rest;
    } else {
      assert s[..7] == "http://" && s[4] == ':' && s[7..] == rest;
    }
  }

  lemma ParsesAs(scheme: string, authority: string, path: string, query: string)
    requires scheme == "http" || scheme == "https"
    requires Free(authority, "/?#") && path != "" && path[0] == '/' && Free(path, "?#") && Free(query, "#")
    ensures ParseUrl(scheme + ("://" + (authority + (path + ("?" + query)))))
            == Some(Url(scheme, authority, path, Some(query)))
  {
    SchemeOf(scheme, authority + (path + ("?" + query)));
    hide Cut, Free, ParseUrl;
    CutConcat(authority, path + ("?" + query), "/?#");
    PathAndQuery(path, query);
  }

  lemma PathAndQuery(path: string, query: string)
    requires Free(path, "?#") && Free(query, "#")
    ensures var p := path + ("?" + query);
            && Cut(p, "?#") == |path| && p[..|path|] == path && p[|path|] == '?'
            && p[|path| + 1..] == query && query[..Cut(query, "#")] == query
  {
    hide Cut, Free;
    var p := path + ("?" + query);
    CutConcat(path, "?" + query, "?#");
    CutConcat(query, "", "#");
    assert query + "" == query;
    assert p[|path| + 1..] == query;
  }

  lemma Regroup(scheme: string, host: string, path: string, query: string)
    ensures scheme + "://" + host + path + "?" + query == scheme + ("://" + (host + (path + ("?" + query))))
  {
    assert path + "?" + query == path + ("?" + query);
    assert scheme + "://" + host + path + "?" + query == (scheme + "://" + host) + (path + ("?" + query));
    assert (scheme + "://" + host) + (path + ("?" + query)) == (scheme + "://") + (host + (path + ("?" + query)));
  }

  /* ---------- the host that is signed ---------- */

  function Slashes(n: nat): (s: string)
    ensures |s| == n && forall i :: 0 <= i < n ==> s[i] == '/'
  {
    seq(n, _ => '/')
  }

  predicate EndsWith(s: string, t: string) { |t| <= |s| && s[|s| - |t|..] == t }

  /** scheme://authority and n slashes. */
  ghost predicate IsEndpoint(endpoint: string, scheme: string, authority: string, n: nat) {
    && (scheme == "http" || scheme == "https") && authority != "" && Free(authority, "/?#")
    && endpoint == scheme + "://" + authority + Slashes(n)
  }

  /** An authority with an empty port, whose name ends like a scheme, before two slashes or more. */
  predicate LooksLikeScheme(authority: string, n: nat) {
    n >= 2 && (EndsWith(authority, "http:") || EndsWith(authority, "https:"))
  }

  lemma {:induction false} StripSlashes(s: string, n: nat)
    requires s != "" && s[|s| - 1] != '/'
    ensures StripRight(s + Slashes(n), "/") == s
  {
    var t := s + Slashes(n);
    if n == 0 {
      assert t == s;
    } else {
      assert t[..|t| - 1] == s + Slashes(n - 1);
      StripSlashes(s, n - 1);
    }
  }

  /** A scheme found in an authority and slashes starts at the authority's very end. */
  lemma SchemeInside(authority: string, n: nat, scheme: string, i: int)
    requires Free(authority, "/") && (scheme == "http:" || scheme == "https:")
    ensures OccursAt(authority + Slashes(n), scheme + "//", i)
            <==> n >= 2 && EndsWith(authority, scheme) && i == |authority| - |scheme|
  {
    var t, pattern := authority + Slashes(n), scheme + "//";
    if OccursAt(t, pattern, i) {
      assert forall k :: 0 <= k < |pattern| ==> t[i..][k] == pattern[k] && t[i + k] == pattern[k];
      var j := i + |scheme|;
      assert t[j - 1] == ':' && t[j] == '/' && t[j + 1] == '/';
      assert j == |authority|;
      assert authority[i..] == scheme by {
        assert forall k :: 0 <= k < |scheme| ==> authority[i..][k] == t[i + k] == scheme[k];
      }
    }
    if n >= 2 && EndsWith(authority, scheme) && i == |authority| - |scheme| {
      assert t[i..] == authority[i..] + Slashes(n);
      assert t[i..][..|pattern|] == pattern;
    }
  }

  lemma SecureSchemeGoes(t: string)
    ensures Without("https://" + t, "https://") == Without(t, "https://")
  {
    assert ("https://" + t)[|"https://"|..] == t;
  }

  lemma PlainSchemeGoes(t: string)
    ensures Without("http://" + t, "http://") == Without(t, "http://")
  {
    assert ("http://" + t)[|"http://"|..] == t;
  }

  lemma StepsOver(c: char, t: string, pattern: string, k: nat)
    requires k < |pattern| && k <= |t| && ([c] + t)[k] != pattern[k]
    ensures Without([c] + t, pattern) == [c] + Without(t, pattern)
  {
    assert ([c] + t)[1..] == t;
  }

  /** Taking https:// off leaves a leading http:// in place. */
  lemma PlainSchemeStays(t: string)
    ensures Without("http://" + t, "https://") == "http://" + Without(t, "https://")
  {
    hide Without;
    var p, w := "https://", Without(t, "https://");
    StepsOver('/', t, p, 0);
    StepsOver('/', "/" + t, p, 0);
    assert "/" + ("/" + t) == "//" + t && "/" + ("/" + w) == "//" + w;
    StepsOver(':', "//" + t, p, 0);
    StepsOver('p', "://" + t, p, 0);
    assert ":" + ("//" + t) == "://" + t && "p" + ("://" + t) == "p://" + t && "p" + (":" + ("//" + w)) == "p://" + w;
    StepsOver('t', "p://" + t, p, 0);
    StepsOver('t', "tp://" + t, p, 0);
    assert "t" + ("p://" + t) == "tp://" + t && "t" + ("tp://" + t) == "ttp://" + t
           && "t" + ("t" + ("p://" + w)) == "ttp://" + w;
    StepsOver('h', "ttp://" + t, p, 4);
    assert "h" + ("ttp://" + t) == "http://" + t && "h" + ("ttp://" + w) == "http://" + w;
  }

  lemma BareHostIs(endpoint: string, scheme: string, t: string)
    requires (scheme == "http" || scheme == "https") && endpoint == scheme + "://" + t
    ensures BareHost(endpoint) == StripRight(Without(Without(t, "https://"), "http://"), "/")
  {
    hide Without, StripRight;
    if scheme == "https" {
      assert endpoint == "https://" + t;
      SecureSchemeGoes(t);
    } else {
      assert endpoint == "http://" + t;
      PlainSchemeStays(t);
      PlainSchemeGoes(Without(t, "https://"));
    }
  }

  lemma {:induction false} StripLosesNone(s: string, c: char)
    ensures Count(StripRight(s, "/"), c) <= Count(s, c)
  {
    if s != "" && s[|s| - 1] == '/' {
      StripLosesNone(s[..|s| - 1], c);
      assert s == s[..|s| - 1] + ["/"[0]];
      CountOfConcat(s[..|s| - 1], "/", c);
    }
  }

  lemma {:induction false} NoColonInSlashes(n: nat)
    ensures Count(Slashes(n), ':') == 0
  {
    if n > 0 {
      assert Slashes(n)[1..] == Slashes(n - 1);
      NoColonInSlashes(n - 1);
    }
  }

  lemma NotInside(authority: string, n: nat, scheme: string)
    requires Free(authority, "/") && (scheme == "http:" || scheme == "https:")
    requires !(n >= 2 && EndsWith(authority, scheme))
    ensures Without(authority + Slashes(n), scheme + "//") == authority + Slashes(n)
  {
    hide Without;
    forall i: int
      ensures !OccursAt(authority + Slashes(n), scheme + "//", i)
    {
      SchemeInside(authority, n, scheme, i);
    }
    WithoutNone(authority + Slashes(n), scheme + "//");
  }

  lemma Inside(authority: string, n: nat, scheme: string)
    requires Free(authority, "/") && (scheme == "http:" || scheme == "https:") && n >= 2 && EndsWith(authority, scheme)
    ensures Count(Without(authority + Slashes(n), scheme + "//"), ':') < Count(authority, ':')
  {
    hide Without, Count;
    var t, pattern := authority + Slashes(n), scheme + "//";
    SchemeInside(authority, n, scheme, |authority| - |scheme|);
    assert pattern[|scheme| - 1] == ':';
    WithoutSome(t, pattern, ':');
    CountOfConcat(authority, Slashes(n), ':');
    NoColonInSlashes(n);
  }

  /** The host that is signed is the endpoint's authority, except when that looks like a scheme itself. */
  lemma HostIsAuthorityExactlyWhen(endpoint: string, scheme: string, authority: string, n: nat)
    requires IsEndpoint(endpoint, scheme, authority, n)
    ensures BareHost(endpoint) == authority <==> !LooksLikeScheme(authority, n)
  {
    assert endpoint == scheme + "://" + (authority + Slashes(n));
    BareHostIs(endpoint, scheme, authority + Slashes(n));
    hide Without, StripRight, Count;
    assert Free(authority, "/");
    var t := authority + Slashes(n);
    var once := Without(t, "https://");
    var twice := Without(once, "http://");
    assert "https:" + "//" == "https://" && "http:" + "//" == "http://";
    StripLosesNone(twice, ':');
    if EndsWith(authority, "https:") && n >= 2 {
      Inside(authority, n, "https:");
      WithoutSome(once, "http://", ':');
    } else {
      NotInside(authority, n, "https:");
      if EndsWith(authority, "http:") && n >= 2 {
        Inside(authority, n, "http:");
      } else {
        NotInside(authority, n, "http:");
        StripSlashes(authority, n);
      }
    }
  }

  /* ---------- the request the URL makes ---------- */

  lemma QuoteIsFree(s: Text, safe: string)
    requires Free(safe, "?#")
    ensures Free(Quote(s, safe), "?#")
  {
    hide Quote;
    var q := Quote(s, safe);
    forall i | 0 <= i < |q|
      ensures q[i] !in "?#"
    {
      QuotedCharacters(s, safe, q[i]);
    }
  }

  lemma {:induction false} JoinIsFree(parts: seq<string>, separator: char, chars: string)
    requires separator !in chars && forall i :: 0 <= i < |parts| ==> Free(parts[i], chars)
    ensures Free(Join(parts, separator), chars)
  {
    if |parts| > 1 {
      JoinIsFree(parts[1..], separator, chars);
    }
  }

  lemma QueryIsFree(params: seq<Pair>, signature: string)
    requires IsHex(signature)
    ensures Free(Signed(Join(EncodePairs(params), '&'), signature), "?#")
  {
    hide Join, Quote;
    var parts := EncodePairs(params);
    forall i | 0 <= i < |parts|
      ensures Free(parts[i], "?#")
    {
      QuoteIsFree(params[i].0, "");
      QuoteIsFree(params[i].1, "");
    }
    JoinIsFree(parts, '&', "?#");
  }

  lemma PutUrlIs(c: Crypto, cfg: Config, key: Text, expires: Text, m: Moment)
    ensures PutUrl(c, cfg, key, expires, m)
            == Base(cfg, key) + "?" + Signed(CanonicalQuery(cfg, m, expires), SignatureOf(c, cfg, key, expires, m))
  {
    hide Base, Signed, CanonicalQuery, SignatureOf;
  }

  lemma QueryFree(cfg: Config, m: Moment, expires: Text, signature: string)
    requires IsHex(signature)
    ensures Free(Signed(CanonicalQuery(cfg, m, expires), signature), "#")
  {
    hide Params, Sorted, EncodePairs, Join, Signed, IsHex;
    QueryIsFree(Sorted(Params(cfg, m, expires)), signature);
  }

  lemma SignatureIsHex(c: Crypto, cfg: Config, key: Text, expires: Text, m: Moment)
    requires PrintsHex(c)
    ensures IsHex(SignatureOf(c, cfg, key, expires, m))
  {
    hide IsHex, CanonicalRequest, CanonicalUri, CanonicalQuery, Host, AmzDate, Scope, Line;
  }

  /* ---------- any endpoint and bucket: when the URL asks for what was signed ---------- */

  predicate OnlySlashes(s: string) { forall i :: 0 <= i < |s| ==> s[i] == '/' }

  /** An endpoint with no path, whose authority does not look like a scheme. */
  ghost predicate IsPlain(endpoint: string) {
    exists scheme: string, authority: string, n: nat ::
      IsEndpoint(endpoint, scheme, authority, n) && !LooksLikeScheme(authority, n)
  }

  /** The condition on the configuration: a bucket that stays where it is written, and an endpoint with nothing but an
      authority; when the bucket goes into the host, what is left of the endpoint in it. */
  ghost predicate SignsWhatItAsks(cfg: Config) {
    if cfg.pathStyle then Free(cfg.bucket, "?#") && IsPlain(cfg.endpoint)
    else Free(cfg.bucket, "/?#") && Free(BareHost(cfg.endpoint), "/?#")
  }

  /** The host, the path and the query are those that were signed, and the scheme is the endpoint's. */
  predicate AsksForWhatWasSigned(u: Option<Url>, cfg: Config, key: Text, query: string) {
    && u.Some? && u.value.authority == Host(cfg) && u.value.path == CanonicalUri(cfg, key)
    && u.value.query == Some(query) && (u.value.scheme == "https" <==> "https://" <= cfg.endpoint)
  }

  lemma {:induction false} StripIsPrefix(s: string)
    ensures StripRight(s, "/") <= s && OnlySlashes(s[|StripRight(s, "/")|..])
    ensures StripRight(s, "/") != "" ==> StripRight(s, "/")[|StripRight(s, "/")| - 1] != '/'
  {
    if s != "" && s[|s| - 1] == '/' {
      var t := s[..|s| - 1];
      StripIsPrefix(t);
      assert s[|StripRight(t, "/")|..] == t[|StripRight(t, "/")|..] + ['/'];
    } else {
      assert StripRight(s, "/") == s && s[|s|..] == "";
    }
  }

  /** What is left after stripping, and the slashes that went. */
  lemma StripIs(s: string) returns (n: nat)
    ensures s == StripRight(s, "/") + Slashes(n)
    ensures StripRight(s, "/") != "" ==> StripRight(s, "/")[|StripRight(s, "/")| - 1] != '/'
  {
    StripIsPrefix(s);
    hide StripRight;
    var p := StripRight(s, "/");
    n := |s| - |p|;
    assert s == p + s[|p|..] && s[|p|..] == Slashes(n);
  }

  lemma {:induction false} WithoutKeeps(s: string, pattern: string, chars: string)
    requires pattern != "" && Free(pattern, chars) && Free(Without(s, pattern), chars)
    ensures Free(s, chars)
    decreases |s|
  {
    if s != "" {
      if pattern <= s {
        var t := s[|pattern|..];
        WithoutKeeps(t, pattern, chars);
        assert s == pattern + t;
      } else {
        assert Without(s, pattern)[1..] == Without(s[1..], pattern);
        WithoutKeeps(s[1..], pattern, chars);
        assert Without(s, pattern)[0] == s[0];
      }
    }
  }

  /** Nothing but schemes and slashes is taken off an endpoint. */
  lemma BareHostKeeps(endpoint: string)
    requires Free(BareHost(endpoint), "?#")
    ensures Free(endpoint, "?#")
  {
    hide Without, StripRight;
    var once := Without(endpoint, "https://");
    var twice := Without(once, "http://");
    var n := StripIs(twice);
    assert Free(twice, "?#");
    WithoutKeeps(once, "http://", "?#");
    WithoutKeeps(endpoint, "https://", "?#");
  }

  lemma FreeConcat(s: string, t: string, chars: string)
    ensures Free(s + t, chars) <==> Free(s, chars) && Free(t, chars)
  {
    if Free(s + t, chars) {
      assert forall i :: 0 <= i < |s| ==> s[i] == (s + t)[i];
      assert forall i :: 0 <= i < |t| ==> t[i] == (s + t)[|s| + i];
    }
  }

  lemma UriStarts(cfg: Config, key: Text)
    ensures var uri := CanonicalUri(cfg, key);
            && uri != "" && uri[0] == '/' && (Free(uri, "?#") <==> cfg.pathStyle ==> Free(cfg.bucket, "?#"))
  {
    hide Quote;
    var q := Quote(key, "/");
    QuoteIsFree(key, "/");
    if cfg.pathStyle {
      FreeConcat("/" + cfg.bucket + "/", q, "?#");
      FreeConcat("/" + cfg.bucket, "/", "?#");
      FreeConcat("/", cfg.bucket, "?#");
    } else {
      FreeConcat("/", q, "?#");
    }
  }

  /** What comes before the first ? or # of a URL. */
  lemma BeforeQuery(s: string)
    requires ParseUrl(s).Some?
    ensures var u := ParseUrl(s).value;
            && s[..Cut(s, "?#")] == u.scheme + "://" + (u.authority + u.path)
            && (u.scheme == "http" || u.scheme == "https") && Free(u.authority, "/?#")
  {
    var u := ParseUrl(s).value;
    var rest := RestOf(s);
    hide Cut, ParseUrl, Hierarchical, Free;
    var k := HierarchicalParts(u.scheme, rest);
    CutAfterScheme(u.scheme, u.authority + u.path, rest[k..]);
  }

  lemma RestOf(s: string) returns (rest: string)
    requires ParseUrl(s).Some?
    ensures var u := ParseUrl(s).value;
            && s == u.scheme + "://" + rest && u == Hierarchical(u.scheme, rest)
            && (u.scheme == "http" || u.scheme == "https")
  {
    hide Hierarchical;
    assert "https" + "://" == "https://" && "http" + "://" == "http://";
    if "https://" <= s {
      rest := s[8..];
      SchemeOfParts("https", rest);
    } else {
      rest := s[7..];
      SchemeOfParts("http", rest);
    }
  }

  lemma SchemeOfParts(scheme: string, rest: string)
    ensures Hierarchical(scheme, rest).scheme == scheme
  {
    hide Cut;
  }

  lemma CutAfterScheme(scheme: string, front: string, rest: string)
    requires (scheme == "http" || scheme == "https") && Free(front, "?#") && (rest != "" ==> rest[0] in "?#")
    ensures var s := scheme + "://" + (front + rest); s[..Cut(s, "?#")] == scheme + "://" + front
  {
    assert Free(scheme + "://", "?#");
    FreeConcat(scheme + "://", front, "?#");
    hide Free;
    assert scheme + "://" + (front + rest) == (scheme + "://" + front) + rest;
    CutConcat(scheme + "://" + front, rest, "?#");
  }

  lemma HierarchicalParts(scheme: string, rest: string) returns (k: nat)
    ensures var u := Hierarchical(scheme, rest);
            && k <= |rest| && rest == (u.authority + u.path) + rest[k..] && (k < |rest| ==> rest[k] in "?#")
            && Free(u.authority + u.path, "?#") && Free(u.authority, "/?#")
  {
    hide Cut;
    var a := Cut(rest, "/?#");
    var p := rest[a..];
    var n := Cut(p, "?#");
    k := a + n;
    FreeConcat(rest[..a], p[..n], "?#");
  }

  /** In path style, a URL that asks for what was signed has a plain endpoint. */
  lemma PathStyleNeeds(cfg: Config, key: Text, query: string)
    requires cfg.pathStyle && AsksForWhatWasSigned(ParseUrl(Base(cfg, key) + "?" + query), cfg, key, query)
    ensures SignsWhatItAsks(cfg)
  {
    var url, bare, uri := Base(cfg, key) + "?" + query, StripRight(cfg.endpoint, "/"), CanonicalUri(cfg, key);
    var u := ParseUrl(url).value;
    BaseInPathStyle(cfg, key);
    hide ParseUrl, Base, CanonicalUri, BareHost, StripRight, Cut, LooksLikeScheme, Host;
    BeforeQuery(url);
    UriStarts(cfg, key);
    PathIsFree(url);
    BareHostKeeps(cfg.endpoint);
    var n := StripIs(cfg.endpoint);
    FreeConcat(bare, Slashes(n), "?#");
    FreeConcat(bare, uri, "?#");
    FrontOf(bare + uri, query);
    FrontIs(u.scheme, u.authority, bare, uri, n);
    assert IsEndpoint(cfg.endpoint, u.scheme, u.authority, n);
    HostIsAuthorityExactlyWhen(cfg.endpoint, u.scheme, u.authority, n);
  }

  lemma PathIsFree(s: string)
    requires ParseUrl(s).Some?
    ensures Free(ParseUrl(s).value.path, "?#") && Free(ParseUrl(s).value.authority, "?#")
  {
    hide Cut;
  }

  lemma FrontOf(front: string, query: string)
    requires Free(front, "?#")
    ensures (front + "?" + query)[..Cut(front + "?" + query, "?#")] == front
  {
    assert front + "?" + query == front + ("?" + query);
    CutConcat(front, "?" + query, "?#");
  }

  lemma FrontIs(scheme: string, authority: string, bare: string, uri: string, n: nat)
    requires bare + uri == scheme + "://" + (authority + uri) && (bare != "" ==> bare[|bare| - 1] != '/')
    ensures authority != "" && bare + Slashes(n) == scheme + "://" + authority + Slashes(n)
  {
    var front := scheme + "://" + authority;
    assert authority == "" ==> front[|front| - 1] == '/';
    assert scheme + "://" + (authority + uri) == front + uri;
    SameSuffix(bare, front, uri);
  }

  lemma BaseInPathStyle(cfg: Config, key: Text)
    requires cfg.pathStyle
    ensures Base(cfg, key) == StripRight(cfg.endpoint, "/") + CanonicalUri(cfg, key)
    ensures Host(cfg) == BareHost(cfg.endpoint)
  {
    hide StripRight, BareHost, Quote;
    assert "/" + cfg.bucket + "/" + Quote(key, "/") == CanonicalUri(cfg, key);
  }

  lemma SameSuffix(s: string, t: string, suffix: string)
    requires s + suffix == t + suffix
    ensures s == t
  {
    assert |s| == |t|;
    assert (s + suffix)[..|s|] == s && (t + suffix)[..|t|] == t;
  }

  /** In path style, a plain endpoint and bucket are enough. */
  lemma PathStyleAsks(cfg: Config, key: Text, query: string)
    requires cfg.pathStyle && SignsWhatItAsks(cfg) && Free(query, "#")
    ensures AsksForWhatWasSigned(ParseUrl(Base(cfg, key) + "?" + query), cfg, key, query)
  {
    hide BareHost, StripRight, LooksLikeScheme, ParseUrl, Base, CanonicalUri, Host;
    var scheme, authority, n :| IsEndpoint(cfg.endpoint, scheme, authority, n) && !LooksLikeScheme(authority, n);
    BaseInPathStyle(cfg, key);
    HostIsAuthorityExactlyWhen(cfg.endpoint, scheme, authority, n);
    UriStarts(cfg, key);
    PlainBase(cfg.endpoint, scheme, authority, n);
    hide Free, IsEndpoint;
    ParsesAs(scheme, authority, CanonicalUri(cfg, key), query);
    Regroup(scheme, authority, CanonicalUri(cfg, key), query);
  }

  lemma PlainBase(endpoint: string, scheme: string, authority: string, n: nat)
    requires IsEndpoint(endpoint, scheme, authority, n)
    ensures StripRight(endpoint, "/") == scheme + "://" + authority
    ensures (scheme == "http" || scheme == "https") && Free(authority, "/?#")
    ensures "https://" <= endpoint <==> scheme == "https"
  {
    hide StripRight, ParseUrl;
    assert authority[|authority| - 1] != '/';
    StripSlashes(scheme + "://" + authority, n);
    SchemeOf(scheme, authority + Slashes(n));
    assert endpoint == scheme + ("://" + (authority + Slashes(n)));
  }

  /** With the bucket in the host, the URL asks for what was signed unless the host ends early. */
  lemma HostStyleAsks(cfg: Config, key: Text, query: string)
    requires !cfg.pathStyle && Free(query, "#")
    ensures AsksForWhatWasSigned(ParseUrl(Base(cfg, key) + "?" + query), cfg, key, query)
            <==> Free(Host(cfg), "/?#")
  {
    var scheme, host, uri := if "https://" <= cfg.endpoint then "https" else "http", Host(cfg), CanonicalUri(cfg, key);
    UriStarts(cfg, key);
    assert Base(cfg, key) == scheme + "://" + host + uri;
    hide Base, Host, CanonicalUri, ParseUrl;
    Regroup(scheme, host, uri, query);
    if Free(host, "/?#") {
      ParsesAs(scheme, host, uri, query);
    } else {
      EndsEarly(scheme, host, uri + ("?" + query));
    }
  }

  lemma EndsEarly(scheme: string, host: string, rest: string)
    requires (scheme == "http" || scheme == "https") && !Free(host, "/?#")
    ensures var u := ParseUrl(scheme + ("://" + (host + rest))); u.Some? && u.value.authority != host
  {
    hide Cut;
    SchemeOf(scheme, host + rest);
    var n := Cut(host, "/?#");
    CutAt(host + rest, "/?#", n);
  }

  lemma HostIsFree(cfg: Config)
    requires !cfg.pathStyle
    ensures Free(Host(cfg), "/?#") <==> SignsWhatItAsks(cfg)
  {
    hide BareHost;
    FreeConcat(cfg.bucket + ".", BareHost(cfg.endpoint), "/?#");
    FreeConcat(cfg.bucket, ".", "/?#");
  }

  /** Whatever the endpoint and the bucket are: the URL asks for the host, the path and the query that were signed
      exactly when the configuration meets the condition. */
  lemma AsSignedExactlyWhen(c: Crypto, cfg: Config, key: Text, expires: Text, m: Moment)
    requires PrintsHex(c)
    ensures AsksForWhatWasSigned(ParseUrl(PutUrl(c, cfg, key, expires, m)), cfg, key,
                                 Signed(CanonicalQuery(cfg, m, expires), SignatureOf(c, cfg, key, expires, m)))
            <==> SignsWhatItAsks(cfg)
  {
    hide *;
    var signature := SignatureOf(c, cfg, key, expires, m);
    var query := Signed(CanonicalQuery(cfg, m, expires), signature);
    SignatureIsHex(c, cfg, key, expires, m);
    QueryFree(cfg, m, expires, signature);
    PutUrlIs(c, cfg, key, expires, m);
    if cfg.pathStyle {
      if SignsWhatItAsks(cfg) {
        PathStyleAsks(cfg, key, query);
      } else if AsksForWhatWasSigned(ParseUrl(Base(cfg, key) + "?" + query), cfg, key, query) {
        PathStyleNeeds(cfg, key, query);
      }
    } else {
      HostStyleAsks(cfg, key, query);
      HostIsFree(cfg);
    }
  }

  /** When no scheme text occurs again after the endpoint's own, the condition on what is left of it in the host is that
      the endpoint has no path: with the bucket in the host, as in path style. */
  lemma NoPathExactlyWhen(endpoint: string, scheme: string, tail: string)
    requires (scheme == "http" || scheme == "https") && endpoint == scheme + "://" + tail
    requires forall i :: !OccursAt(tail, "https://", i) && !OccursAt(tail, "http://", i)
    ensures Free(BareHost(endpoint), "/?#")
            <==> exists authority: string, n: nat :: Free(authority, "/?#") && tail == authority + Slashes(n)
  {
    BareHostIs(endpoint, scheme, tail);
    WithoutNone(tail, "https://");
    WithoutNone(tail, "http://");
    hide BareHost, Without;
    if Free(BareHost(endpoint), "/?#") {
      var n := StripIs(tail);
      assert Free(StripRight(tail, "/"), "/?#") && tail == StripRight(tail, "/") + Slashes(n);
    }
    if authority: string, n: nat :| Free(authority, "/?#") && tail == authority + Slashes(n) {
      StripsTo(authority, n);
    }
  }

  lemma {:induction false} StripsAll(n: nat)
    ensures StripRight(Slashes(n), "/") == ""
  {
    if n > 0 {
      assert Slashes(n)[..n - 1] == Slashes(n - 1);
      StripsAll(n - 1);
    }
  }

  lemma StripsTo(authority: string, n: nat)
    requires Free(authority, "/")
    ensures StripRight(authority + Slashes(n), "/") == authority
  {
    if authority != "" {
      StripSlashes(authority, n);
    } else {
      assert "" + Slashes(n) == Slashes(n);
      StripsAll(n);
    }
  }

  /* ---------- the service that receives the request ---------- */

  function ValueOf(given: seq<(string, string)>, key: string): Option<string> {
    if given == [] then None else if given[0].0 == key then Some(given[0].1) else ValueOf(given[1..], key)
  }

  /** The key derived from the secret for a date, a region and a service. */
  function Derive(c: Crypto, key: string, parts: seq<string>): string
    decreases |parts|
  {
    if parts == [] then key else Derive(c, c.hmac(key, parts[0]), parts[1..])
  }

  /** The service takes algorithm, date, credential and signed headers from the parameters it was given, and what it is
      to compare from the request as it arrived. */
  predicate SignatureMatches(c: Crypto, cfg: Config, path: string, authority: string, signed: string,
                             given: seq<(string, string)>) {
    var algorithm, date := ValueOf(given, "X-Amz-Algorithm"), ValueOf(given, "X-Amz-Date");
    var headers := ValueOf(given, "X-Amz-SignedHeaders");
    && algorithm == Some("AWS4-HMAC-SHA256") && headers == Some("host") && date.Some? && |date.value| >= 8
    && var day := date.value[..8];
       var scope := Join([day, cfg.region, "s3", "aws4_request"], '/');
       && ValueOf(given, "X-Amz-Credential") == Some(cfg.accessKey + "/" + scope)
       && var request := Join(["PUT", path, signed, "host:" + authority, "", headers.value, "UNSIGNED-PAYLOAD"], '\n');
          var key := Derive(c, "AWS4" + cfg.secret, [day, cfg.region, "s3", "aws4_request"]);
          var lines := Join([algorithm.value, date.value, scope, c.sha256(request)], '\n');
          ValueOf(given, SIGNATURE) == Some(c.hexHmac(key, lines))
  }

  /** Characters that stand for bytes. */
  predicate IsText(s: string) { forall i :: 0 <= i < |s| ==> s[i] as int < 256 }

  predicate AreTexts(given: seq<(string, string)>) {
    forall i :: 0 <= i < |given| ==> IsText(given[i].0) && IsText(given[i].1)
  }

  /** The parameters but for the signature. */
  function Unsigned(given: seq<(string, string)>): seq<Pair>
    requires AreTexts(given)
  {
    if given == [] then []
    else
      assert IsText(given[0].0) && IsText(given[0].1);
      (if given[0].0 == SIGNATURE then [] else [(given[0].0, given[0].1)]) + Unsigned(given[1..])
  }

  /** All it knows of the request is the URL. It decodes the parameters, and writes down again what should have been
      signed: without the signature, in order, and encoded. */
  predicate Accepts(c: Crypto, cfg: Config, url: string) {
    var u := ParseUrl(url);
    && u.Some? && u.value.query.Some?
    && var given := ParseQuery(u.value.query.value);
       && AreTexts(given)
       && var query := Join(EncodePairs(Sorted(Unsigned(given))), '&');
          SignatureMatches(c, cfg, u.value.path, u.value.authority, query, given)
  }

  lemma {:induction false} ValueIs(given: seq<(string, string)>, key: string, value: string)
    requires (key, value) in given && forall i :: 0 <= i < |given| && given[i].0 == key ==> given[i].1 == value
    ensures ValueOf(given, key) == Some(value)
  {
    if given[0].0 != key {
      assert (key, value) in given[1..];
      assert forall i :: 0 <= i < |given[1..]| ==> given[1..][i] == given[i + 1];
      ValueIs(given[1..], key, value);
    }
  }

  lemma KeysDiffer(cfg: Config, m: Moment, expires: Text, p: Pair)
    requires p in Params(cfg, m, expires)
    ensures p.0 == "X-Amz-Date" ==> p.1 == AmzDate(m)
    ensures p.0 == "X-Amz-Credential" ==> p.1 == Credential(cfg, m)
    ensures p.0 == "X-Amz-Algorithm" ==> p.1 == ALGORITHM
    ensures p.0 == "X-Amz-SignedHeaders" ==> p.1 == HOST
    ensures p.0 != SIGNATURE
  {
    hide AmzDate, Credential;
    assert "X-Amz-Algorithm"[6] == 'A' && SIGNATURE[6] == 'S';
    assert "X-Amz-SignedHeaders"[6] == 'S' && "X-Amz-ContentSha256"[6] == 'C';
  }

  lemma ParamsHave(cfg: Config, m: Moment, expires: Text, signature: string, params: seq<Pair>)
    requires multiset(params) == multiset(Params(cfg, m, expires))
    ensures var given := params + [(SIGNATURE, signature)];
            && ValueOf(given, "X-Amz-Date") == Some(AmzDate(m))
            && ValueOf(given, "X-Amz-Credential") == Some(Credential(cfg, m))
            && ValueOf(given, "X-Amz-Algorithm") == Some(ALGORITHM)
            && ValueOf(given, "X-Amz-SignedHeaders") == Some(HOST)
            && ValueOf(given, SIGNATURE) == Some(signature)
  {
    var all := Params(cfg, m, expires);
    assert all[0].0 == "X-Amz-Algorithm" && all[1].0 == "X-Amz-Credential" && all[2].0 == "X-Amz-Date"
           && all[4].0 == "X-Amz-SignedHeaders";
    forall p: Pair | p in all
      ensures p in params && (p.0 == SIGNATURE ==> p.1 == signature)
    {
      assert p in multiset(all);
      KeysDiffer(cfg, m, expires, p);
    }
    forall p: Pair | p in params
      ensures p in all
    {
      assert p in multiset(params);
    }
    hide ValueOf, AmzDate, Credential;
    ParamHas(cfg, m, expires, signature, params, 0);
    ParamHas(cfg, m, expires, signature, params, 1);
    ParamHas(cfg, m, expires, signature, params, 2);
    ParamHas(cfg, m, expires, signature, params, 4);
    SignatureIsLast(params, signature);
  }

  lemma SignatureIsLast(params: seq<Pair>, signature: string)
    requires forall p: Pair :: p in params && p.0 == SIGNATURE ==> p.1 == signature
    ensures ValueOf(params + [(SIGNATURE, signature)], SIGNATURE) == Some(signature)
  {
    hide ValueOf;
    var given: seq<(string, string)> := params + [(SIGNATURE, signature)];
    assert given[|params|] == (SIGNATURE, signature);
    assert forall i :: 0 <= i < |params| ==> given[i] == params[i] && params[i] in params;
    ValueIs(given, SIGNATURE, signature);
  }

  lemma KeysAreDistinct(cfg: Config, m: Moment, expires: Text, k: nat, p: Pair)
    requires k in {0, 1, 2, 4} && p in Params(cfg, m, expires) && p.0 == Params(cfg, m, expires)[k].0
    ensures p == Params(cfg, m, expires)[k]
    ensures Params(cfg, m, expires)[k].0 != SIGNATURE
  {
    KeysDiffer(cfg, m, expires, p);
    hide AmzDate, Credential;
  }

  lemma ParamHas(cfg: Config, m: Moment, expires: Text, signature: string, params: seq<Pair>, k: nat)
    requires k in {0, 1, 2, 4} && forall p: Pair :: p in params <==> p in Params(cfg, m, expires)
    ensures var p := Params(cfg, m, expires)[k]; ValueOf(params + [(SIGNATURE, signature)], p.0) == Some(p.1)
  {
    hide ValueOf, Params;
    var p := Params(cfg, m, expires)[k];
    var given: seq<(string, string)> := params + [(SIGNATURE, signature)];
    KeysAreDistinct(cfg, m, expires, k, p);
    forall i | 0 <= i < |given| && given[i].0 == p.0
      ensures given[i].1 == p.1
    {
      if i < |params| {
        assert params[i] in params;
        KeysAreDistinct(cfg, m, expires, k, params[i]);
      }
    }
    assert p in params;
    var j :| 0 <= j < |params| && params[j] == p;
    assert given[j] == p;
    ValueIs(given, p.0, p.1);
  }

  lemma MatchesWhatWasSigned(c: Crypto, cfg: Config, key: Text, expires: Text, m: Moment, given: seq<(string, string)>)
    requires IsMoment(m)
    requires given == Sorted(Params(cfg, m, expires)) + [(SIGNATURE, SignatureOf(c, cfg, key, expires, m))]
    ensures SignatureMatches(c, cfg, CanonicalUri(cfg, key), Host(cfg), CanonicalQuery(cfg, m, expires), given)
  {
    hide *;
    SortedKeeps(Params(cfg, m, expires));
    ParamsHave(cfg, m, expires, SignatureOf(c, cfg, key, expires, m), Sorted(Params(cfg, m, expires)));
    DateOf(m);
    MatchesWhenGiven(c, cfg, key, expires, m, given);
  }

  lemma DateOf(m: Moment)
    requires IsMoment(m)
    ensures |AmzDate(m)| >= 8 && AmzDate(m)[..8] == m.date
  {
  }

  lemma JoinLine(text: string, rest: seq<string>)
    requires rest != []
    ensures Join([text] + rest, '\n') == Line(text, Join(rest, '\n'))
  {
  }

  /** The lines of the canonical request, as the service joins them. */
  lemma RequestLines(path: string, query: string, host: string)
    ensures Join(["PUT", path, query, "host:" + host, "", "host", "UNSIGNED-PAYLOAD"], '\n')
            == CanonicalRequest(path, query, host)
  {
    hide Join, Line;
    var l6 := ["UNSIGNED-PAYLOAD"];
    var l5 := ["host"] + l6;
    var l4 := [""] + l5;
    var l3 := ["host:" + host] + l4;
    var l2 := [query] + l3;
    var l1 := [path] + l2;
    JoinLine("host", l6);
    JoinLine("", l5);
    JoinLine("host:" + host, l4);
    JoinLine(query, l3);
    JoinLine(path, l2);
    JoinLine("PUT", l1);
    JoinOne("UNSIGNED-PAYLOAD");
    assert ["PUT"] + l1 == ["PUT", path, query, "host:" + host, "", "host", "UNSIGNED-PAYLOAD"];
  }

  lemma JoinOne(text: string)
    ensures Join([text], '\n') == text
  {
  }

  lemma StringToSignLines(a: string, b: string, d: string, e: string)
    ensures Join([a, b, d, e], '\n') == Line(a, Line(b, Line(d, e)))
  {
    hide Join, Line;
    JoinOne(e);
    JoinLine(d, [e]);
    JoinLine(b, [d] + [e]);
    JoinLine(a, [b] + ([d] + [e]));
    assert [a, b, d, e] == [a] + ([b] + ([d] + [e]));
  }

  lemma JoinSlash(text: string, rest: seq<string>)
    requires rest != []
    ensures Join([text] + rest, '/') == text + "/" + Join(rest, '/')
  {
  }

  lemma ScopeParts(day: string, region: string)
    ensures Join([day, region, "s3", "aws4_request"], '/') == Scope(day, region)
  {
    hide Join;
    var last: seq<string> := ["aws4_request"];
    JoinSlashOne("aws4_request");
    JoinSlash("s3", last);
    JoinSlash(region, ["s3"] + last);
    JoinSlash(day, [region] + (["s3"] + last));
    assert [day] + ([region] + (["s3"] + last)) == [day, region, "s3", "aws4_request"];
    ScopeText(day, region);
  }

  lemma JoinSlashOne(text: string)
    ensures Join([text], '/') == text
  {
  }

  lemma ScopeText(day: string, region: string)
    ensures day + "/" + (region + "/" + ("s3" + "/" + "aws4_request")) == Scope(day, region)
  {
    assert "s3" + "/" + "aws4_request" == "s3/aws4_request";
    assert "/" + ("s3/aws4_request") == "/s3/aws4_request";
  }

  lemma DeriveOne(c: Crypto, key: string, part: string, rest: seq<string>)
    ensures Derive(c, key, [part] + rest) == Derive(c, c.hmac(key, part), rest)
  {
    assert ([part] + rest)[1..] == rest;
  }

  lemma DerivedKey(c: Crypto, secret: string, day: string, region: string)
    ensures Derive(c, secret, [day, region, "s3", "aws4_request"])
            == c.hmac(c.hmac(c.hmac(c.hmac(secret, day), region), "s3"), "aws4_request")
  {
    var l1: seq<string> := ["aws4_request"] + [];
    var l2 := ["s3"] + l1;
    var l3 := [region] + l2;
    var k1 := c.hmac(secret, day);
    var k2 := c.hmac(k1, region);
    DeriveOne(c, secret, day, l3);
    DeriveOne(c, k1, region, l2);
    DeriveOne(c, k2, "s3", l1);
    DeriveOne(c, c.hmac(k2, "s3"), "aws4_request", []);
    assert [day] + l3 == [day, region, "s3", "aws4_request"];
  }

  lemma MatchesWhenGiven(c: Crypto, cfg: Config, key: Text, expires: Text, m: Moment, given: seq<(string, string)>)
    requires |AmzDate(m)| >= 8 && AmzDate(m)[..8] == m.date
    requires ValueOf(given, "X-Amz-Date") == Some(AmzDate(m))
    requires ValueOf(given, "X-Amz-Credential") == Some(Credential(cfg, m))
    requires ValueOf(given, "X-Amz-Algorithm") == Some(ALGORITHM) && ValueOf(given, "X-Amz-SignedHeaders") == Some(HOST)
    requires ValueOf(given, SIGNATURE) == Some(SignatureOf(c, cfg, key, expires, m))
    ensures SignatureMatches(c, cfg, CanonicalUri(cfg, key), Host(cfg), CanonicalQuery(cfg, m, expires), given)
  {
    hide CanonicalRequest, CanonicalUri, CanonicalQuery, Host, ValueOf, AmzDate, Scope, Join, Line, Derive;
    var request := CanonicalRequest(CanonicalUri(cfg, key), CanonicalQuery(cfg, m, expires), Host(cfg));
    ScopeParts(m.date, cfg.region);
    RequestLines(CanonicalUri(cfg, key), CanonicalQuery(cfg, m, expires), Host(cfg));
    DerivedKey(c, "AWS4" + cfg.secret, m.date, cfg.region);
    StringToSignLines(ALGORITHM, AmzDate(m), Scope(m.date, cfg.region), c.sha256(request));
  }

  /** Sorting what is in order changes nothing. */
  lemma {:induction false} SortedStays(params: seq<Pair>)
    requires InOrder(params)
    ensures Sorted(params) == params
  {
    hide Less;
    if params != [] {
      if |params| > 1 {
        SortedStays(params[1..]);
      }
      assert params == [params[0]] + params[1..];
    }
  }

  lemma {:induction false} UnsignedIs(params: seq<Pair>, signature: string)
    requires IsText(signature) && forall i :: 0 <= i < |params| ==> params[i].0 != SIGNATURE
    ensures AreTexts(params + [(SIGNATURE, signature)]) && Unsigned(params + [(SIGNATURE, signature)]) == params
  {
    var given: seq<(string, string)> := params + [(SIGNATURE, signature)];
    if params == [] {
      assert given[1..] == [];
    } else {
      UnsignedIs(params[1..], signature);
      assert given[1..] == params[1..] + [(SIGNATURE, signature)];
      assert params == [params[0]] + params[1..];
    }
  }

  lemma NoneIsSignature(cfg: Config, m: Moment, expires: Text)
    ensures var params := Sorted(Params(cfg, m, expires)); forall i :: 0 <= i < |params| ==> params[i].0 != SIGNATURE
  {
    var all := Params(cfg, m, expires);
    var params := Sorted(all);
    SortedKeeps(all);
    hide Sorted, Params;
    forall i | 0 <= i < |params|
      ensures params[i].0 != SIGNATURE
    {
      assert params[i] in multiset(params);
      KeysDiffer(cfg, m, expires, params[i]);
    }
  }

  /** The service decodes the query, leaves the signature out, sorts and encodes again, and has what was signed. */
  lemma RebuildsQuery(cfg: Config, m: Moment, expires: Text, signature: string)
    requires IsHex(signature)
    ensures var given := ParseQuery(Signed(CanonicalQuery(cfg, m, expires), signature));
            && given == Sorted(Params(cfg, m, expires)) + [(SIGNATURE, signature)] && AreTexts(given)
            && Join(EncodePairs(Sorted(Unsigned(given))), '&') == CanonicalQuery(cfg, m, expires)
  {
    HexIsText(signature);
    hide IsHex, IsText, Sorted, Params, EncodePairs, ParseQuery, Join, Signed, InOrder, Unsigned, AreTexts;
    var params := Sorted(Params(cfg, m, expires));
    QueryRoundTrip(cfg, m, expires, signature);
    NoneIsSignature(cfg, m, expires);
    UnsignedIs(params, signature);
    SortedStays(params);
  }

  lemma HexIsText(s: string)
    requires IsHex(s)
    ensures IsText(s)
  {
  }

  /** A service with the same configuration accepts every URL that asks for what was signed, in both addressing
      styles. */
  lemma AcceptedByService(c: Crypto, cfg: Config, key: Text, expires: Text, m: Moment)
    requires SignsWhatItAsks(cfg) && PrintsHex(c) && IsMoment(m)
    ensures Accepts(c, cfg, PutUrl(c, cfg, key, expires, m))
  {
    hide *;
    AsSignedExactlyWhen(c, cfg, key, expires, m);
    SignatureIsHex(c, cfg, key, expires, m);
    var signature, query := SignatureOf(c, cfg, key, expires, m), CanonicalQuery(cfg, m, expires);
    RebuildsQuery(cfg, m, expires, signature);
    MatchesWhatWasSigned(c, cfg, key, expires, m, ParseQuery(Signed(query, signature)));
    AcceptsIs(c, cfg, PutUrl(c, cfg, key, expires, m), key, Signed(query, signature));
  }

  lemma AcceptsIs(c: Crypto, cfg: Config, url: string, key: Text, query: string)
    requires AsksForWhatWasSigned(ParseUrl(url), cfg, key, query) && AreTexts(ParseQuery(query))
    ensures var given := ParseQuery(query);
            Accepts(c, cfg, url)
            <==> SignatureMatches(c, cfg, CanonicalUri(cfg, key), Host(cfg),
                                  Join(EncodePairs(Sorted(Unsigned(given))), '&'), given)
  {
    hide ParseUrl, ParseQuery, SignatureMatches, Join, EncodePairs, Sorted, Unsigned, Host, CanonicalUri, AreTexts;
  }

  /* ---------- what the URL says, read without what wrote it ---------- */

  /** The path leads to this object of the bucket. */
  predicate NamesObject(cfg: Config, path: string, key: Text) {
    if cfg.pathStyle
    then "/" + cfg.bucket + "/" <= path && Decode(path[|cfg.bucket| + 2..]) == key
    else "/" <= path && Decode(path[1..]) == key
  }

  /** Letters, digits, the marks that stay as they are, and slashes. */
  predicate IsPlainKey(key: string) {
    forall i :: 0 <= i < |key| ==>
      'A' <= key[i] <= 'Z' || 'a' <= key[i] <= 'z' || '0' <= key[i] <= '9' || key[i] in "-._~/"
  }

  lemma {:induction false} QuotePlain(key: Text)
    requires IsPlainKey(key)
    ensures Quote(key, "/") == key
  {
    if key != "" {
      QuotePlain(key[1..]);
    }
  }

  lemma UriNamesObject(cfg: Config, key: Text)
    ensures NamesObject(cfg, CanonicalUri(cfg, key), key)
    ensures IsPlainKey(key) ==> CanonicalUri(cfg, key) == (if cfg.pathStyle then "/" + cfg.bucket + "/" else "/") + key
  {
    if IsPlainKey(key) {
      QuotePlain(key);
    }
    hide Quote, Decode;
    DecodeOfQuote(key, "/");
    if cfg.pathStyle {
      assert CanonicalUri(cfg, key)[..|cfg.bucket| + 2] == "/" + cfg.bucket + "/";
      assert CanonicalUri(cfg, key)[|cfg.bucket| + 2..] == Quote(key, "/");
    } else {
      assert CanonicalUri(cfg, key)[1..] == Quote(key, "/");
    }
  }

  /** The URL names the object to upload, in both addressing styles and for every key; a plain key, slashes and all,
      is written as it is. */
  lemma UrlNamesObject(c: Crypto, cfg: Config, key: Text, expires: Text, m: Moment)
    requires SignsWhatItAsks(cfg) && PrintsHex(c)
    ensures var u := ParseUrl(PutUrl(c, cfg, key, expires, m));
            && u.Some? && NamesObject(cfg, u.value.path, key)
            && (IsPlainKey(key) ==> u.value.path == (if cfg.pathStyle then "/" + cfg.bucket + "/" else "/") + key)
  {
    AsSignedExactlyWhen(c, cfg, key, expires, m);
    UriNamesObject(cfg, key);
    hide IsPlainKey, NamesObject, ParseUrl, PutUrl, SignsWhatItAsks, CanonicalUri, CanonicalQuery, SignatureOf,
         Signed, Host;
  }

  /** Under one configuration two keys never share the path of a URL, whenever the URLs are signed. */
  lemma KeysHaveOwnPaths(c: Crypto, cfg: Config, key: Text, expires: Text, m: Moment, key': Text, expires': Text,
                         m': Moment)
    requires SignsWhatItAsks(cfg) && PrintsHex(c)
    ensures var u, u' := ParseUrl(PutUrl(c, cfg, key, expires, m)), ParseUrl(PutUrl(c, cfg, key', expires', m'));
            u.Some? && u'.Some? && (u.value.path == u'.value.path ==> key == key')
  {
    UrlNamesObject(c, cfg, key, expires, m);
    UrlNamesObject(c, cfg, key', expires', m');
    hide ParseUrl, PutUrl, SignsWhatItAsks, Decode;
  }

  /** The request goes to the endpoint, or to the bucket's own name below it, with the endpoint's scheme. */
  lemma UrlReachesEndpoint(c: Crypto, cfg: Config, key: Text, expires: Text, m: Moment, scheme: string,
                           authority: string, n: nat)
    requires IsEndpoint(cfg.endpoint, scheme, authority, n) && !LooksLikeScheme(authority, n)
    requires Free(cfg.bucket, "/?#") && PrintsHex(c)
    ensures var u := ParseUrl(PutUrl(c, cfg, key, expires, m));
            && u.Some? && u.value.scheme == scheme
            && u.value.authority == if cfg.pathStyle then authority else cfg.bucket + "." + authority
  {
    HostIsAuthorityExactlyWhen(cfg.endpoint, scheme, authority, n);
    PlainBase(cfg.endpoint, scheme, authority, n);
    assert IsPlain(cfg.endpoint);
    hide ParseUrl, PutUrl, BareHost, CanonicalUri, CanonicalQuery, SignatureOf, Signed, LooksLikeScheme, IsPlain;
    AsSignedExactlyWhen(c, cfg, key, expires, m);
    hide IsEndpoint, StripRight;
    OnlyTwoSchemes(PutUrl(c, cfg, key, expires, m));
  }

  lemma OnlyTwoSchemes(s: string)
    requires ParseUrl(s).Some?
    ensures ParseUrl(s).value.scheme == "http" || ParseUrl(s).value.scheme == "https"
  {
    hide Cut;
  }

  lemma {:induction false} LessAfter(prefix: string, a: string, b: string)
    ensures Less(prefix + a, prefix + b) <==> Less(a, b)
  {
    if prefix == "" {
      assert prefix + a == a && prefix + b == b;
    } else {
      assert (prefix + a)[1..] == prefix[1..] + a && (prefix + b)[1..] == prefix[1..] + b;
      LessAfter(prefix[1..], a, b);
    }
  }

  /** Keys with a common beginning compare by the first character after it. */
  lemma LessByCharacter(prefix: string, a: string, b: string, x: string, y: string)
    requires x != "" && y != "" && a == prefix + x && b == prefix + y && x[0] != y[0]
    ensures Less(a, b) <==> x[0] < y[0]
  {
    LessAfter(prefix, x, y);
  }

  lemma KeysCompare()
    ensures Less(PAYLOAD_KEY, HEADERS_KEY) && Less(PAYLOAD_KEY, EXPIRES_KEY) && Less(PAYLOAD_KEY, DATE_KEY)
    ensures Less(PAYLOAD_KEY, CREDENTIAL_KEY) && !Less(PAYLOAD_KEY, ALGORITHM_KEY)
    ensures !Less(HEADERS_KEY, EXPIRES_KEY) && !Less(EXPIRES_KEY, DATE_KEY) && !Less(DATE_KEY, CREDENTIAL_KEY)
  {
    hide Less;
    LessByCharacter("X-Amz-", PAYLOAD_KEY, HEADERS_KEY, "ContentSha256", "SignedHeaders");
    LessByCharacter("X-Amz-", PAYLOAD_KEY, EXPIRES_KEY, "ContentSha256", "Expires");
    LessByCharacter("X-Amz-", PAYLOAD_KEY, DATE_KEY, "ContentSha256", "Date");
    LessByCharacter("X-Amz-C", PAYLOAD_KEY, CREDENTIAL_KEY, "ontentSha256", "redential");
    LessByCharacter("X-Amz-", PAYLOAD_KEY, ALGORITHM_KEY, "ContentSha256", "Algorithm");
    LessByCharacter("X-Amz-", HEADERS_KEY, EXPIRES_KEY, "SignedHeaders", "Expires");
    LessByCharacter("X-Amz-", EXPIRES_KEY, DATE_KEY, "Expires", "Date");
    LessByCharacter("X-Amz-", DATE_KEY, CREDENTIAL_KEY, "Date", "Credential");
  }

  lemma InsertFront(p: Pair, sorted: seq<Pair>)
    requires sorted != [] ==> !Less(sorted[0].0, p.0)
    ensures Insert(p, sorted) == [p] + sorted
  {
  }

  lemma InsertSecond(p: Pair, first: Pair, rest: seq<Pair>)
    requires Less(first.0, p.0) && (rest != [] ==> !Less(rest[0].0, p.0))
    ensures Insert(p, [first] + rest) == [first] + ([p] + rest)
  {
    assert ([first] + rest)[1..] == rest;
    InsertFront(p, rest);
  }

  lemma SortedStep(p: Pair, rest: seq<Pair>)
    ensures Sorted([p] + rest) == Insert(p, Sorted(rest))
  {
    assert ([p] + rest)[1..] == rest;
  }

  lemma SortedOne(p: Pair)
    ensures Sorted([p]) == [p]
  {
    assert Sorted([]) == [];
  }

  /** The parameters in the order the URL has them. */
  lemma ParamsSorted(algorithm: Text, credential: Text, date: Text, expires: Text, headers: Text, payload: Text)
    ensures var a, c: Pair, d: Pair := (ALGORITHM_KEY, algorithm), (CREDENTIAL_KEY, credential), (DATE_KEY, date);
            var e, h: Pair, p: Pair := (EXPIRES_KEY, expires), (HEADERS_KEY, headers), (PAYLOAD_KEY, payload);
            Sorted([a, c, d, e, h, p]) == [a, p, c, d, e, h]
  {
    var a: Pair, c: Pair, d: Pair := (ALGORITHM_KEY, algorithm), (CREDENTIAL_KEY, credential), (DATE_KEY, date);
    var e: Pair, h: Pair, p: Pair := (EXPIRES_KEY, expires), (HEADERS_KEY, headers), (PAYLOAD_KEY, payload);
    KeysCompare();
    hide *;
    SortedOne(p);
    SortedStep(h, [p]);
    InsertSecond(h, p, []);
    assert [p] + [] == [p];
    SortedStep(e, [h] + [p]);
    InsertSecond(e, p, [h]);
    assert [p] + ([h] + []) == [p] + [h];
    SortedStep(d, [e] + ([h] + [p]));
    InsertSecond(d, p, [e] + [h]);
    SortedStep(c, [d] + ([e] + ([h] + [p])));
    InsertSecond(c, p, [d] + ([e] + [h]));
    SortedStep(a, [c] + ([d] + ([e] + ([h] + [p]))));
    InsertFront(a, [p] + ([c] + ([d] + ([e] + [h]))));
    assert [a] + ([c] + ([d] + ([e] + ([h] + [p])))) == [a, c, d, e, h, p];
    assert [a] + ([p] + ([c] + ([d] + ([e] + [h])))) == [a, p, c, d, e, h];
  }

  /** The parameters as they should be written for signature version 4, in order. */
  function Expected(cfg: Config, m: Moment, expires: Text): seq<(string, string)> {
    [("X-Amz-Algorithm", "AWS4-HMAC-SHA256"), ("X-Amz-ContentSha256", "UNSIGNED-PAYLOAD"),
     ("X-Amz-Credential", cfg.accessKey + "/" + (m.date + "/" + cfg.region + "/s3/aws4_request")),
     ("X-Amz-Date", m.date + "T" + m.time + "Z"), ("X-Amz-Expires", expires), ("X-Amz-SignedHeaders", "host")]
  }

  lemma SortedIsExpected(cfg: Config, m: Moment, expires: Text)
    ensures Sorted(Params(cfg, m, expires)) == Expected(cfg, m, expires)
  {
    hide Sorted;
    ParamsSorted(ALGORITHM, Credential(cfg, m), AmzDate(m), expires, HOST, UNSIGNED);
  }

  lemma UrlHasQuery(c: Crypto, cfg: Config, key: Text, expires: Text, m: Moment)
    requires SignsWhatItAsks(cfg) && PrintsHex(c)
    ensures var u := ParseUrl(PutUrl(c, cfg, key, expires, m));
            && u.Some?
            && u.value.query == Some(Signed(CanonicalQuery(cfg, m, expires), SignatureOf(c, cfg, key, expires, m)))
  {
    AsSignedExactlyWhen(c, cfg, key, expires, m);
    hide ParseUrl, PutUrl, SignsWhatItAsks, CanonicalUri, CanonicalQuery, SignatureOf, Signed, Host;
  }

  lemma QueryIsExpected(cfg: Config, m: Moment, expires: Text, signature: string)
    requires IsHex(signature)
    ensures ParseQuery(Signed(CanonicalQuery(cfg, m, expires), signature))
            == Expected(cfg, m, expires) + [("X-Amz-Signature", signature)]
  {
    assert SIGNATURE == "X-Amz-Signature";
    hide *;
    QueryRoundTrip(cfg, m, expires, signature);
    SortedIsExpected(cfg, m, expires);
  }

  /** What a service finds in the query: these parameters, and then a signature. */
  lemma UrlCarries(c: Crypto, cfg: Config, key: Text, expires: Text, m: Moment)
    requires SignsWhatItAsks(cfg) && PrintsHex(c)
    ensures var u := ParseUrl(PutUrl(c, cfg, key, expires, m));
            && u.Some? && u.value.query.Some?
            && exists signature: string ::
                 ParseQuery(u.value.query.value) == Expected(cfg, m, expires) + [("X-Amz-Signature", signature)]
  {
    hide *;
    UrlHasQuery(c, cfg, key, expires, m);
    SignatureIsHex(c, cfg, key, expires, m);
    QueryIsExpected(cfg, m, expires, SignatureOf(c, cfg, key, expires, m));
  }
}
