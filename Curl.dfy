/** `URLRequest.curlRequest` (Sources/Extensions/NSURLRequest+cURL.swift): the debug rendering of a request
    as a cURL command line. The method comes first, then one `-H` per header field, a `-d` with the body
    when it decodes as UTF-8, and the quoted absolute URL last; header keys, header values and the body
    have their double quotes escaped. */
module Curl {
  import opened Common

  /** What the rendering reads of a request. The header fields are listed in the order the dictionary
      hands them out; UTF-8 decoding belongs to Foundation and is a parameter of the rendering. */
  datatype CurlInput = CurlInput(
    httpMethod: string,
    headers: seq<(string, string)>,
    body: Option<seq<bv8>>,
    absoluteUrl: Option<string>)

  /** `escapeString`: every double quote becomes a backslash and a double quote. */
  function Escape(s: string): string {
    if s == [] then [] else (if s[0] == '"' then "\\\"" else [s[0]]) + Escape(s[1..])
  }

  /** Reads an escaped string back: a backslash directly followed by a double quote stands for the quote. */
  function Unescape(e: string): string
    decreases |e|
  {
    if |e| >= 2 && e[0] == '\\' && e[1] == '"' then "\"" + Unescape(e[2..])
    else if e == [] then []
    else [e[0]] + Unescape(e[1..])
  }

  function QuoteCount(s: string): nat {
    if s == [] then 0 else (if s[0] == '"' then 1 else 0) + QuoteCount(s[1..])
  }

  /** An escaped string never starts with a bare double quote. */
  lemma EscapeHead(s: string)
    ensures Escape(s) == [] <==> s == []
    ensures s != [] ==> Escape(s)[0] == (if s[0] == '"' then '\\' else s[0])
  {
  }

  /** Escaping loses nothing: unescaping gives the original string back. */
  lemma {:induction false} EscapeRoundTrip(s: string)
    ensures Unescape(Escape(s)) == s
  {
    if s != [] {
      var rest := Escape(s[1..]);
      EscapeRoundTrip(s[1..]);
      if s[0] == '"' {
        assert Escape(s) == "\\\"" + rest;
        assert Escape(s)[2..] == rest;
      } else {
        assert Escape(s) == [s[0]] + rest;
        assert Escape(s)[1..] == rest;
        if s[0] == '\\' && rest != [] {
          EscapeHead(s[1..]);
        }
      }
    }
  }

  /** Escaping adds exactly one character per double quote, and every double quote of the result is
      preceded by a backslash. */
  lemma {:induction false} EscapeShape(s: string)
    ensures |Escape(s)| == |s| + QuoteCount(s)
    ensures forall i :: 0 <= i < |Escape(s)| && Escape(s)[i] == '"' ==> i > 0 && Escape(s)[i - 1] == '\\'
  {
    if s != [] {
      var rest := Escape(s[1..]);
      EscapeShape(s[1..]);
      EscapeHead(s[1..]);
      var head := if s[0] == '"' then "\\\"" else [s[0]];
      assert Escape(s) == head + rest;
      forall i | 0 <= i < |Escape(s)| && Escape(s)[i] == '"'
        ensures i > 0 && Escape(s)[i - 1] == '\\'
      {
        if i >= |head| {
          assert rest[i - |head|] == '"';
        }
      }
    }
  }

  const Prefix0 := "curl -k -X "

  /** The fixed start of the command: insecure, the method, and the response headers dumped to stdout. */
  function Prefix(httpMethod: string): string {
    Prefix0 + httpMethod + " --dump-header -"
  }

  /** One ` -H "key: value"` segment. */
  function HeaderSegment(h: (string, string)): string {
    " -H \"" + Escape(h.0) + ": " + Escape(h.1) + "\""
  }

  /** The header segments, one per field, in iteration order. */
  function HeaderSegments(hs: seq<(string, string)>): string
    decreases |hs|
  {
    if hs == [] then "" else HeaderSegments(hs[..|hs| - 1]) + HeaderSegment(hs[|hs| - 1])
  }

  /** The ` -d "body"` segment, present only for a body that decodes as UTF-8. */
  function BodySegment(body: Option<seq<bv8>>, utf8: seq<bv8> -> Option<string>): string {
    if body.Some? && utf8(body.value).Some? then " -d \"" + Escape(utf8(body.value).value) + "\"" else ""
  }

  /** The quoted absolute URL, when the request has one. */
  function UrlSegment(absoluteUrl: Option<string>): string {
    if absoluteUrl.Some? then " \"" + absoluteUrl.value + "\"" else ""
  }

  /** The command line, segment by segment. */
  function CurlString(r: CurlInput, utf8: seq<bv8> -> Option<string>): string {
    Prefix(r.httpMethod) + HeaderSegments(r.headers) + BodySegment(r.body, utf8) + UrlSegment(r.absoluteUrl)
  }

  /** `curlRequest`: builds the command in a mutable string, one header field at a time. */
  method CurlRequest(r: CurlInput, utf8: seq<bv8> -> Option<string>) returns (curlString: string)
    ensures curlString == CurlString(r, utf8)
  {
    curlString := "curl -k -X " + r.httpMethod + " --dump-header -";
    var i := 0;
    while i < |r.headers|
      invariant 0 <= i <= |r.headers|
      invariant curlString == Prefix(r.httpMethod) + HeaderSegments(r.headers[..i])
    {
      var (key, value) := r.headers[i];
      var headerKey := Escape(key);
      var headerValue := Escape(value);
      var segment := " -H \"" + headerKey + ": " + headerValue + "\"";
      assert segment == HeaderSegment(r.headers[i]);
      HeaderSegmentsAppend(r.headers[..i], r.headers[i]);
      assert r.headers[..i + 1] == r.headers[..i] + [r.headers[i]];
      curlString := curlString + segment;
      i := i + 1;
    }
    assert r.headers[..i] == r.headers;
    assert curlString == Prefix(r.httpMethod) + HeaderSegments(r.headers);
    if r.body.Some? {
      var bodyDataString := utf8(r.body.value);
      if bodyDataString.Some? {
        curlString := curlString + (" -d \"" + Escape(bodyDataString.value) + "\"");
      }
    }
    if r.absoluteUrl.Some? {
      curlString := curlString + (" \"" + r.absoluteUrl.value + "\"");
    }
  }

  /** The command starts with `curl -k -X <method> --dump-header -`. */
  lemma StartsWithMethod(r: CurlInput, utf8: seq<bv8> -> Option<string>)
    ensures var p := "curl -k -X " + r.httpMethod + " --dump-header -";
            |p| <= |CurlString(r, utf8)| && CurlString(r, utf8)[..|p|] == p
  {
    var p := Prefix(r.httpMethod);
    var rest := HeaderSegments(r.headers) + BodySegment(r.body, utf8) + UrlSegment(r.absoluteUrl);
    assert CurlString(r, utf8) == p + rest;
    assert (p + rest)[..|p|] == p;
  }

  /** Each header field contributes exactly its own segment, in order: adding a field appends its
      segment to those of the fields before it. */
  lemma HeaderSegmentsAppend(hs: seq<(string, string)>, h: (string, string))
    ensures HeaderSegments(hs + [h]) == HeaderSegments(hs) + HeaderSegment(h)
  {
    assert (hs + [h])[..|hs|] == hs;
  }

  /** A body segment is written exactly when there is a body that decodes as UTF-8. */
  lemma BodySegmentIffDecodable(body: Option<seq<bv8>>, utf8: seq<bv8> -> Option<string>)
    ensures BodySegment(body, utf8) != "" <==> body.Some? && utf8(body.value).Some?
  {
    if body.Some? && utf8(body.value).Some? {
      assert |BodySegment(body, utf8)| > 0;
    }
  }

  /** When the request has a URL, the quoted absolute URL is the last segment. */
  lemma UrlIsLast(r: CurlInput, utf8: seq<bv8> -> Option<string>)
    requires r.absoluteUrl.Some?
    ensures var tail := " \"" + r.absoluteUrl.value + "\"";
            var c := CurlString(r, utf8);
            |tail| <= |c| && c[|c| - |tail|..] == tail
  {
    var head := Prefix(r.httpMethod) + HeaderSegments(r.headers) + BodySegment(r.body, utf8);
    var tail := UrlSegment(r.absoluteUrl);
    assert CurlString(r, utf8) == head + tail;
    assert (head + tail)[|head + tail| - |tail|..] == tail;
  }
}
