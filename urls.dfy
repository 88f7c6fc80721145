/** The two string computations of the connection handle: the base URL the
    client stores, and the WebSocket URL it derives from it and the token. */
module Urls {
  import opened Models

  predicate EndsWithSlash(s: string) {
    |s| > 0 && s[|s| - 1] == '/'
  }

  /** The constructor's normalisation: the stored base URL ends in `/`, and
      a `/` is added only when the given URL does not already end in one. */
  function NormalizeBaseUrl(url: string): (r: string)
    ensures EndsWithSlash(r)
    ensures |url| <= |r| <= |url| + 1 && r[..|url|] == url
    ensures r == url <==> EndsWithSlash(url)
  {
    if EndsWithSlash(url) then url else url + "/"
  }

  lemma NormalizeIdempotent(url: string)
    ensures NormalizeBaseUrl(NormalizeBaseUrl(url)) == NormalizeBaseUrl(url)
  {
  }

  /** Java's string concatenation of a possibly-null `String`. */
  function JavaText(s: Option<string>): (r: string)
    ensures r == "null" <==> s.None? || s.value == "null"
  {
    match s
    case Some(t) => t
    case None => "null"
  }

  /** A missing token and the token text `null` give the same WebSocket
      URL: the server cannot tell them apart. */
  lemma NullTokenSameUrl(baseUrl: string)
    ensures WsUrl(baseUrl, None) == WsUrl(baseUrl, Some("null"))
    ensures forall t :: WsUrl(baseUrl, Some(t)) == WsUrl(baseUrl, None) ==> t == "null"
  {
    forall t | WsUrl(baseUrl, Some(t)) == WsUrl(baseUrl, None) ensures t == "null" {
      var prefix := WsScheme(baseUrl) + "api/events?token=";
      assert prefix + t == prefix + "null";
      assert t == (prefix + t)[|prefix|..];
    }
  }

  /** `http` occurs in `s` starting at index `i`. */
  predicate HttpAt(s: string, i: int) {
    0 <= i && i + 4 <= |s| && s[i] == 'h' && s[i + 1] == 't' && s[i + 2] == 't' && s[i + 3] == 'p'
  }

  ghost predicate ContainsHttp(s: string) {
    exists i :: HttpAt(s, i)
  }

  /** `baseUrl.replace("http", "ws")`: Java's `String.replace` scans from the
      left and replaces every non-overlapping occurrence, not only the scheme. */
  function WsScheme(s: string): string
    decreases |s|
  {
    if |s| == 0 then ""
    else if HttpAt(s, 0) then "ws" + WsScheme(s[4..])
    else [s[0]] + WsScheme(s[1..])
  }

  /** The URL `connectWebSocket` opens. */
  function WsUrl(baseUrl: string, authToken: Option<string>): string {
    WsScheme(baseUrl) + "api/events?token=" + JavaText(authToken)
  }

  /** A leading character that does not start `http` is copied unchanged. */
  lemma WsSchemeCons(c: char, rest: string)
    requires !HttpAt([c] + rest, 0)
    ensures WsScheme([c] + rest) == [c] + WsScheme(rest)
  {
    assert ([c] + rest)[1..] == rest;
  }

  /** A leading `http` becomes `ws`. */
  lemma WsSchemeHttp(rest: string)
    ensures WsScheme("http" + rest) == "ws" + WsScheme(rest)
  {
    assert ("http" + rest)[4..] == rest;
  }

  /** If the rewritten text does not start with the replacement's `w`, its
      first character was copied from the input. */
  lemma {:induction false} WsSchemeHead(s: string)
    requires |WsScheme(s)| > 0 && WsScheme(s)[0] != 'w'
    ensures |s| > 0 && WsScheme(s)[0] == s[0]
    ensures WsScheme(s)[1..] == WsScheme(s[1..])
    ensures !HttpAt(s, 0)
  {
  }

  /** After the rewrite no `http` is left anywhere in the URL: not only the
      scheme but every later occurrence has been replaced. */
  lemma {:induction false} WsSchemeRemovesHttp(s: string)
    ensures !ContainsHttp(WsScheme(s))
    decreases |s|
  {
    var r := WsScheme(s);
    if |s| == 0 {
    } else if HttpAt(s, 0) {
      var rest := WsScheme(s[4..]);
      WsSchemeRemovesHttp(s[4..]);
      assert r == "ws" + rest;
      forall i ensures !HttpAt(r, i) {
        assert i >= 2 ==> (HttpAt(r, i) <==> HttpAt(rest, i - 2));
      }
    } else {
      var rest := WsScheme(s[1..]);
      WsSchemeRemovesHttp(s[1..]);
      assert r == [s[0]] + rest;
      forall i ensures !HttpAt(r, i) {
        if i >= 1 {
          assert HttpAt(r, i) <==> HttpAt(rest, i - 1);
        } else if i == 0 && HttpAt(r, 0) {
          assert rest[0] == 't' && rest[1] == 't' && rest[2] == 'p';
          WsSchemeHead(s[1..]);
          assert WsScheme(s[2..]) == rest[1..];
          WsSchemeHead(s[2..]);
          assert WsScheme(s[3..]) == rest[2..];
          WsSchemeHead(s[3..]);
          assert false;
        }
      }
    }
  }

  /** A URL without `http` in it is left as it is. */
  lemma {:induction false} WsSchemeIdentity(s: string)
    requires !ContainsHttp(s)
    ensures WsScheme(s) == s
    decreases |s|
  {
    if |s| > 0 {
      assert !HttpAt(s, 0);
      forall i | HttpAt(s[1..], i) ensures false {
        assert HttpAt(s, i + 1);
      }
      WsSchemeIdentity(s[1..]);
    }
  }

  /** Rewriting twice is rewriting once. */
  lemma WsSchemeIdempotent(s: string)
    ensures WsScheme(WsScheme(s)) == WsScheme(s)
  {
    WsSchemeRemovesHttp(s);
    WsSchemeIdentity(WsScheme(s));
  }

  /** The separator after the scheme is copied as it is. */
  lemma WsSchemeSeparator(rest: string)
    ensures WsScheme("://" + rest) == "://" + WsScheme(rest)
  {
    WsSchemeCons('/', rest);
    assert ['/'] + rest == "/" + rest;
    WsSchemeCons('/', "/" + rest);
    assert ['/'] + ("/" + rest) == "//" + rest;
    WsSchemeCons(':', "//" + rest);
    assert [':'] + ("//" + rest) == "://" + rest;
  }

  /** `http://` becomes `ws://` and `https://` becomes `wss://`. */
  lemma WsSchemeOfHttp(rest: string)
    ensures WsScheme("http://" + rest) == "ws://" + WsScheme(rest)
  {
    var a := "://" + rest;
    WsSchemeSeparator(rest);
    WsSchemeHttp(a);
    assert "http://" + rest == "http" + a;
  }

  lemma WsSchemeOfHttps(rest: string)
    ensures WsScheme("https://" + rest) == "wss://" + WsScheme(rest)
  {
    var a := "s://" + rest;
    WsSchemeSeparator(rest);
    WsSchemeCons('s', "://" + rest);
    assert ['s'] + ("://" + rest) == a;
    WsSchemeHttp(a);
    assert "https://" + rest == "http" + a;
  }

  /** The `http` test on a host name without the letter `h`. */
  lemma NoHttpWithoutH(s: string)
    requires forall i :: 0 <= i < |s| ==> s[i] != 'h'
    ensures !ContainsHttp(s)
  {
    forall i ensures !HttpAt(s, i) {
      if 0 <= i < |s| {
        assert s[i] != 'h';
      }
    }
  }

  /** The WebSocket URL of an `http`/`https` base URL whose remainder holds
      no further `http`. */
  lemma WsUrlOfHttpBase(host: string, authToken: Option<string>)
    requires !ContainsHttp(host)
    ensures WsUrl("http://" + host, authToken) == "ws://" + host + "api/events?token=" + JavaText(authToken)
    ensures WsUrl("https://" + host, authToken) == "wss://" + host + "api/events?token=" + JavaText(authToken)
  {
    WsSchemeIdentity(host);
    WsSchemeOfHttp(host);
    WsSchemeOfHttps(host);
  }

  /** The client built on `http://example.test/` with token `tok123` connects
      to `ws://example.test/api/events?token=tok123`, and on the `https` form
      of that base URL to `wss://example.test/api/events?token=tok123`.
      The literals are bound to parameters by the precondition so that the
      verifier reasons about the concatenations symbolically instead of
      evaluating the rewrite on constant strings. */
  lemma WsUrlExample(host: string, token: string)
    requires host == "example.test/" && token == "tok123"
    ensures WsUrl(NormalizeBaseUrl("http://" + host), Some(token)) == "ws://" + host + "api/events?token=" + token
    ensures WsUrl(NormalizeBaseUrl("https://" + host), Some(token)) == "wss://" + host + "api/events?token=" + token
  {
    NoHttpWithoutH(host);
    WsUrlOfHttpBase(host, Some(token));
  }

  /** Later occurrences are rewritten too: in `http://h/http/` the path
      segment `http` becomes `ws` as well (the host is a parameter for the
      same reason as in `WsUrlExample`). */
  lemma WsSchemeRewritesPath(host: string)
    requires host == "h/"
    ensures WsScheme("http://" + host + "http/") == "ws://" + host + "ws/"
  {
    WsSchemeCons('/', "");
    WsSchemeHttp("/");
    WsSchemeCons('/', "http/");
    assert ['/'] + "http/" == "/http/";
    WsSchemeCons('h', "/http/");
    assert ['h'] + "/http/" == host + "http/";
    WsSchemeOfHttp(host + "http/");
    assert "http://" + host + "http/" == "http://" + (host + "http/");
  }
}
