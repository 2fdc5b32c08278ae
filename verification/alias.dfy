/**
 * Alias generation (src/services/base.py, `create_obj`): the 6-character
 * `short_form` token and the externally visible `short_url` built from the
 * advertised host and port, a fixed path prefix and the token.
 * The token comes from a random source outside the model and is a parameter.
 */
module Alias {
  import opened Records
  import opened Strings

  const SCHEME := "http://"
  const PATH_PREFIX := "/api/v1/short_url/"
  const TOKEN_LENGTH := 6

  predicate IsAlphanumeric(c: char) {
    ('a' <= c <= 'z') || ('A' <= c <= 'Z') || ('0' <= c <= '9')
  }

  /** What the random source delivers: six case-sensitive alphanumeric characters. */
  predicate ValidToken(t: string) {
    |t| == TOKEN_LENGTH && forall i :: 0 <= i < |t| ==> IsAlphanumeric(t[i])
  }

  predicate IsDigit(c: char) {
    '0' <= c <= '9'
  }

  predicate AllDigits(s: string) {
    forall i :: 0 <= i < |s| ==> IsDigit(s[i])
  }

  function DigitChar(d: nat): (c: char)
    requires d < 10
    ensures IsDigit(c)
  {
    ('0' as int + d) as char
  }

  function DigitValue(c: char): nat
    requires IsDigit(c)
  {
    c as int - '0' as int
  }

  /** Python's `str(n)` for a non-negative integer: decimal digits, no leading zero. */
  function DecimalString(n: nat): (r: string)
    ensures |r| >= 1 && AllDigits(r)
    ensures r[0] == '0' <==> n == 0
    ensures n == 0 ==> r == "0"
    decreases n
  {
    if n < 10 then [DigitChar(n)] else DecimalString(n / 10) + [DigitChar(n % 10)]
  }

  /** The number a string of decimal digits denotes; the inverse of DecimalString. */
  function DecimalValue(s: string): nat
    requires AllDigits(s)
  {
    if s == [] then 0 else 10 * DecimalValue(s[..|s| - 1]) + DigitValue(s[|s| - 1])
  }

  lemma {:induction false} DecimalRoundTrip(n: nat)
    ensures DecimalValue(DecimalString(n)) == n
    decreases n
  {
    if n >= 10 {
      var s := DecimalString(n);
      assert s[..|s| - 1] == DecimalString(n / 10);
      DecimalRoundTrip(n / 10);
    }
  }

  /** `'http://' + host + ':' + str(port) + '/api/v1/short_url/' + short_form`. */
  function ComposeShortUrl(host: string, port: nat, token: string): (r: string)
    ensures StartsWith(r, SCHEME)
    ensures EndsWith(r, PATH_PREFIX + token)
  {
    SCHEME + host + ":" + DecimalString(port) + PATH_PREFIX + token
  }

  /** The path parameter a request to `url` carries: the text after its last `/`. */
  function ShortFormOf(url: string): (r: string)
    ensures '/' !in r
    ensures EndsWith(url, r)
    ensures |r| < |url| ==> url[|url| - |r| - 1] == '/'
    decreases |url|
  {
    if '/' !in url then url
    else
      var r := ShortFormOf(url[1..]);
      assert url[|url| - |r|..] == url[1..][|url| - 1 - |r|..];
      assert url == [url[0]] + url[1..];
      r
  }

  /** Behind a `/`, a slash-free tail is the whole path parameter. */
  lemma {:induction false} ShortFormOfAfterSlash(prefix: string, t: string)
    requires |prefix| > 0 && prefix[|prefix| - 1] == '/'
    requires '/' !in t
    ensures ShortFormOf(prefix + t) == t
    decreases |prefix|
  {
    var u := prefix + t;
    assert u[|prefix| - 1] == '/';
    assert u[1..] == prefix[1..] + t;
    if |prefix| == 1 {
      assert u[1..] == t;
    } else {
      ShortFormOfAfterSlash(prefix[1..], t);
    }
  }

  /** A short URL built for a token leads back to that token. */
  lemma ShortUrlRoundTrip(host: string, port: nat, token: string)
    requires ValidToken(token)
    ensures ShortFormOf(ComposeShortUrl(host, port, token)) == token
  {
    var prefix := SCHEME + host + ":" + DecimalString(port) + PATH_PREFIX;
    assert ComposeShortUrl(host, port, token) == prefix + token;
    ShortFormOfAfterSlash(prefix, token);
  }

  /**
   * `create_obj`: the record keeps the caller's `origin_url`, takes the token
   * as `short_form` and the composed string as `short_url`.
   */
  function CreateObj(input: ShortUrlCreate, host: string, port: nat, token: string): (r: NewShortUrl)
    requires ValidToken(token)
    ensures r.originUrl == input.originUrl && r.shortForm == token
    ensures r.shortUrl == ComposeShortUrl(host, port, token)
  {
    NewShortUrl(input.originUrl, ComposeShortUrl(host, port, token), token)
  }
}
