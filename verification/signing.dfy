/** URL signing (utils.go): the three-line sign string, its HMAC-SHA256
    signature, the `hmac username=...` authorization descriptor and the query
    appended to the host URL. HMAC-SHA256 (RFC 2104 with FIPS 180-4), Base64
    (section 4 of RFC 4648), the string-to-bytes conversion, URL parsing and
    query encoding are foreign: they are parameters here, and the current
    time enters as the already formatted RFC 1123 date. */
module Signing {
  import opened Wrappers

  /** The two parts of a parsed URL the signer uses. */
  datatype ParsedURL = ParsedURL(host: string, path: string)

  /** The foreign functions the signer calls. */
  datatype Primitives = Primitives(
    parse: string -> Option<ParsedURL>,              // url.Parse; None on a parse error
    bytes: string -> seq<bv8>,                       // []byte(s)
    hmacSha256: (seq<bv8>, seq<bv8>) -> seq<bv8>,    // HMAC-SHA256 digest of (key, data)
    base64: seq<bv8> -> string,                      // base64.StdEncoding.EncodeToString
    encodeQuery: map<string, string> -> string)      // url.Values.Encode (sorted by key)

  /** strings.Join. */
  function Join(parts: seq<string>, sep: string): string
  {
    if |parts| == 0 then ""
    else if |parts| == 1 then parts[0]
    else parts[0] + sep + Join(parts[1..], sep)
  }

  /** The lines of `s`: the pieces between its newline characters. */
  function Lines(s: string): (ls: seq<string>)
    ensures |ls| >= 1
  {
    if s == [] then [""]
    else
      var rest := Lines(s[1..]);
      if s[0] == '\n' then [""] + rest
      else [[s[0]] + rest[0]] + rest[1..]
  }

  lemma {:induction false} LinesOfLine(a: string)
    requires '\n' !in a
    ensures Lines(a) == [a]
  {
    if a != [] {
      LinesOfLine(a[1..]);
      assert [a[0]] + a[1..] == a;
    }
  }

  lemma {:induction false} LinesCons(a: string, b: string)
    requires '\n' !in a
    ensures Lines(a + "\n" + b) == [a] + Lines(b)
  {
    if a == [] {
      assert a + "\n" + b == "\n" + b;
      assert ("\n" + b)[1..] == b;
    } else {
      assert (a + "\n" + b)[1..] == a[1..] + "\n" + b;
      LinesCons(a[1..], b);
      assert [a[0]] + a[1..] == a;
    }
  }

  /** Joining newline-free lines with "\n" and splitting the result at its
      newlines gives the lines back. */
  lemma {:induction false} LinesOfJoin(parts: seq<string>)
    requires |parts| >= 1
    requires forall i :: 0 <= i < |parts| ==> '\n' !in parts[i]
    ensures Lines(Join(parts, "\n")) == parts
  {
    if |parts| == 1 {
      LinesOfLine(parts[0]);
    } else {
      LinesCons(parts[0], Join(parts[1..], "\n"));
      LinesOfJoin(parts[1..]);
    }
  }

  lemma JoinThree(a: string, b: string, c: string, sep: string)
    ensures Join([a, b, c], sep) == a + sep + b + sep + c
  {
    assert [a, b, c][1..] == [b, c];
    assert [b, c][1..] == [c];
    assert Join([c], sep) == c;
    assert Join([b, c], sep) == b + sep + c;
    assert Join([a, b, c], sep) == a + sep + (b + sep + c);
  }

  /** The canonical sign string: "host: <host>", "date: <date>" and
      "<METHOD> <path> HTTP/1.1" joined by "\n". */
  function SignString(host: string, date: string, httpMethod: string, path: string): (s: string)
    ensures s == "host: " + host + "\n" + "date: " + date + "\n" + httpMethod + " " + path + " HTTP/1.1"
  {
    JoinThree("host: " + host, "date: " + date, httpMethod + " " + path + " HTTP/1.1", "\n");
    Join(["host: " + host, "date: " + date, httpMethod + " " + path + " HTTP/1.1"], "\n")
  }

  /** When none of its inputs holds a newline, the sign string is exactly
      three lines, in that order. */
  lemma SignStringHasThreeLines(host: string, date: string, httpMethod: string, path: string)
    requires '\n' !in host && '\n' !in date && '\n' !in httpMethod && '\n' !in path
    ensures Lines(SignString(host, date, httpMethod, path)) ==
            ["host: " + host, "date: " + date, httpMethod + " " + path + " HTTP/1.1"]
  {
    var parts := ["host: " + host, "date: " + date, httpMethod + " " + path + " HTTP/1.1"];
    assert '\n' !in parts[2] by {
      assert parts[2] == httpMethod + " " + path + " HTTP/1.1";
    }
    LinesOfJoin(parts);
  }

  /** HmacWithShaToBase64: Base64 of the HMAC-SHA256 of `data` under `key`;
      its `algorithm` argument is not used. */
  function HmacWithShaToBase64(p: Primitives, algorithm: string, data: string, key: string): (s: string)
    ensures s == p.base64(p.hmacSha256(p.bytes(key), p.bytes(data)))
  {
    p.base64(p.hmacSha256(p.bytes(key), p.bytes(data)))
  }

  lemma AlgorithmIgnored(p: Primitives, a: string, b: string, data: string, key: string)
    ensures HmacWithShaToBase64(p, a, data, key) == HmacWithShaToBase64(p, b, data, key)
  {
  }

  /** The authorization descriptor before Base64 encoding: the API key
      quoted as the username, the fixed algorithm and header list, and the
      signature quoted last. */
  function Descriptor(apiKey: string, signature: string): (d: string)
    ensures |d| == |apiKey| + |signature| + 89
    ensures d[..|apiKey| + 18] == "hmac username=\"" + apiKey + "\", "
    ensures d[|apiKey| + 18..|d| - |signature| - 12] == "algorithm=\"hmac-sha256\", headers=\"host date request-line\", "
    ensures d[|d| - |signature| - 12..] == "signature=\"" + signature + "\""
  {
    var user := "hmac username=\"" + apiKey + "\", ";
    var fixed := "algorithm=\"hmac-sha256\", headers=\"host date request-line\", ";
    var signed := "signature=\"" + signature + "\"";
    assert (user + fixed + signed)[..|user|] == user;
    assert (user + fixed + signed)[|user|..|user| + |fixed|] == fixed;
    assert (user + fixed + signed)[|user| + |fixed|..] == signed;
    user + fixed + signed
  }

  /** The query parameters appended to the host URL, for a parsed URL `u` and
      the formatted date. */
  function AuthQuery(p: Primitives, apiKey: string, apiSecret: string, httpMethod: string, u: ParsedURL, date: string)
    : (q: map<string, string>)
    ensures q.Keys == {"host", "date", "authorization"}
  {
    var signature := HmacWithShaToBase64(p, "hmac-sha256", SignString(u.host, date, httpMethod, u.path), apiSecret);
    var authorization := p.base64(p.bytes(Descriptor(apiKey, signature)));
    map["host" := u.host, "date" := date, "authorization" := authorization]
  }

  /** AssembleAuthURL: `hostURL + "?" + query`; None stands for the process
      exit (log.Fatalf) when the URL does not parse. */
  function AssembleAuthURL(p: Primitives, apiKey: string, apiSecret: string, httpMethod: string, hostURL: string, date: string)
    : (r: Option<string>)
    ensures r.None? <==> p.parse(hostURL).None?
    ensures r.Some? ==> hostURL + "?" <= r.value
    ensures r.Some? ==>
              r.value[|hostURL| + 1..] == p.encodeQuery(AuthQuery(p, apiKey, apiSecret, httpMethod, p.parse(hostURL).value, date))
  {
    match p.parse(hostURL)
    case None => None
    case Some(u) => Some(hostURL + "?" + p.encodeQuery(AuthQuery(p, apiKey, apiSecret, httpMethod, u, date)))
  }

  /** Time is read once: the host and date sent in the query are the ones
      the signature was computed over, and the authorization is the Base64
      of the descriptor naming the API key and that signature. */
  lemma QueryMatchesSignature(p: Primitives, apiKey: string, apiSecret: string, httpMethod: string, u: ParsedURL, date: string)
    ensures var q := AuthQuery(p, apiKey, apiSecret, httpMethod, u, date);
      && q["host"] == u.host && q["date"] == date
      && q["authorization"] ==
           p.base64(p.bytes(Descriptor(apiKey,
             p.base64(p.hmacSha256(p.bytes(apiSecret), p.bytes(SignString(q["host"], q["date"], httpMethod, u.path)))))))
  {
  }

  /** Signing the same URL at two instants: the host is the same, the date
      differs when the formatted dates differ, and with equal dates
      everything is equal. */
  lemma OnlyDateAndAuthorizationVary(p: Primitives, apiKey: string, apiSecret: string, httpMethod: string, u: ParsedURL, d1: string, d2: string)
    ensures var q1 := AuthQuery(p, apiKey, apiSecret, httpMethod, u, d1);
      var q2 := AuthQuery(p, apiKey, apiSecret, httpMethod, u, d2);
      && q1["host"] == q2["host"]
      && (d1 != d2 ==> q1["date"] != q2["date"])
      && (d1 == d2 ==> q1 == q2)
  {
  }
}
