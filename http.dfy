/**
 * The parts of net/http that the middleware touches: header maps and their
 * case-insensitive lookup, request bodies as readers, requests, and the
 * response writer that the middleware wraps.
 */
module Http {
  import opened Wrappers

  newtype byte = x: int | 0 <= x < 256

  /** A header map: canonical header name to the list of its values. */
  type Header = map<string, seq<string>>

  /** The characters allowed in a header field name (an RFC 7230 token). */
  predicate IsTokenChar(c: char) {
    || ('a' <= c <= 'z')
    || ('A' <= c <= 'Z')
    || ('0' <= c <= '9')
    || c in "!#$%&'*+-.^_`|~"
  }

  predicate IsToken(s: string) {
    forall i | 0 <= i < |s| :: IsTokenChar(s[i])
  }

  /** The ASCII letter `c` in upper case when `upper` holds, in lower case otherwise. */
  function CaseFor(c: char, upper: bool): char {
    if upper && 'a' <= c <= 'z' then (c as int - 32) as char
    else if !upper && 'A' <= c <= 'Z' then (c as int + 32) as char
    else c
  }

  /** The ASCII lower-case form of `c`, used to say when two names differ only in case. */
  function Lower(c: char): char {
    CaseFor(c, false)
  }

  /** Upper-case the first letter and every letter after a '-', lower-case the rest. */
  function CanonicalFrom(s: string, upper: bool): (r: string)
    ensures |r| == |s|
  {
    if s == [] then [] else [CaseFor(s[0], upper)] + CanonicalFrom(s[1..], s[0] == '-')
  }

  /**
   * The canonical form of a header name ("content-type" becomes "Content-Type");
   * a name that is not a token is left as it is.
   */
  function CanonicalKey(s: string): string {
    if IsToken(s) then CanonicalFrom(s, true) else s
  }

  /** Header.Get: the first value stored under the canonical form of `key`, or "". */
  function HeaderGet(h: Header, key: string): string {
    var k := CanonicalKey(key);
    if k in h && |h[k]| > 0 then h[k][0] else ""
  }

  /** Two names that are equal once both are lower-cased. */
  predicate EqualIgnoringCase(a: string, b: string) {
    |a| == |b| && forall i | 0 <= i < |a| :: Lower(a[i]) == Lower(b[i])
  }

  lemma CaseForIgnoresCase(c: char, d: char, upper: bool)
    requires Lower(c) == Lower(d)
    ensures CaseFor(c, upper) == CaseFor(d, upper)
    ensures (c == '-') == (d == '-')
    ensures IsTokenChar(c) == IsTokenChar(d)
  {
  }

  lemma {:induction false} CanonicalFromIgnoresCase(a: string, b: string, upper: bool)
    requires EqualIgnoringCase(a, b)
    ensures CanonicalFrom(a, upper) == CanonicalFrom(b, upper)
    decreases |a|
  {
    if a != [] {
      CaseForIgnoresCase(a[0], b[0], upper);
      assert EqualIgnoringCase(a[1..], b[1..]) by {
        forall i | 0 <= i < |a[1..]| ensures Lower(a[1..][i]) == Lower(b[1..][i]) {
          assert a[1..][i] == a[i + 1] && b[1..][i] == b[i + 1];
        }
      }
      CanonicalFromIgnoresCase(a[1..], b[1..], a[0] == '-');
    }
  }

  /**
   * Header lookup does not depend on the case in which the caller spells a
   * valid header name; a name that is not a token is looked up as it is.
   */
  lemma HeaderGetIgnoresCase(h: Header, a: string, b: string)
    requires IsToken(a) && EqualIgnoringCase(a, b)
    ensures IsToken(b)
    ensures CanonicalKey(a) == CanonicalKey(b)
    ensures HeaderGet(h, a) == HeaderGet(h, b)
  {
    forall i | 0 <= i < |b| ensures IsTokenChar(b[i]) {
      CaseForIgnoresCase(a[i], b[i], false);
    }
    CanonicalFromIgnoresCase(a, b, true);
  }

  lemma {:induction false} CanonicalFromIdempotent(s: string, upper: bool)
    ensures CanonicalFrom(CanonicalFrom(s, upper), upper) == CanonicalFrom(s, upper)
    ensures IsToken(s) ==> IsToken(CanonicalFrom(s, upper))
    decreases |s|
  {
    if s != [] {
      var r := CanonicalFrom(s, upper);
      assert r[0] == CaseFor(s[0], upper) && r[1..] == CanonicalFrom(s[1..], s[0] == '-');
      assert (r[0] == '-') == (s[0] == '-');
      CanonicalFromIdempotent(s[1..], s[0] == '-');
      if IsToken(s) {
        assert IsToken(s[1..]) by {
          forall i | 0 <= i < |s[1..]| ensures IsTokenChar(s[1..][i]) {
            assert s[1..][i] == s[i + 1];
          }
        }
        forall i | 0 <= i < |r| ensures IsTokenChar(r[i]) {
          if i > 0 {
            assert r[i] == r[1..][i - 1];
          }
        }
      }
    }
  }

  /** Canonicalising a header name twice changes nothing more than doing it once. */
  lemma CanonicalKeyIdempotent(s: string)
    ensures CanonicalKey(CanonicalKey(s)) == CanonicalKey(s)
  {
    CanonicalFromIdempotent(s, true);
  }

  /** A request body: the bytes a reader still has to hand out. */
  class BodyReader {
    var unread: seq<byte>

    /** A reader over exactly `content` (ioutil.NopCloser over bytes.NewBuffer). */
    constructor (content: seq<byte>)
      ensures unread == content
    {
      unread := content;
    }

    /** ioutil.ReadAll: hands out everything that is left and leaves the reader drained. */
    method ReadAll() returns (b: seq<byte>)
      modifies this
      ensures b == old(unread) && unread == []
    {
      b := unread;
      unread := [];
    }
  }

  /** The request fields the middleware reads, as one value. */
  datatype RequestView = RequestView(
    verb: string, host: string, path: string, rawQuery: string, header: Header, body: seq<byte>)

  /** An inbound request; the middleware replaces its body reader. */
  class Request {
    var verb: string
    var host: string
    var path: string
    var rawQuery: string
    var header: Header
    var body: BodyReader

    constructor (verb: string, host: string, path: string, rawQuery: string, header: Header, content: seq<byte>)
      ensures View() == RequestView(verb, host, path, rawQuery, header, content)
      ensures fresh(body)
    {
      this.verb := verb;
      this.host := host;
      this.path := path;
      this.rawQuery := rawQuery;
      this.header := header;
      this.body := new BodyReader(content);
    }

    function View(): RequestView
      reads this, body
    {
      RequestView(verb, host, path, rawQuery, header, body.unread)
    }
  }

  /** A call a handler makes on its http.ResponseWriter. */
  datatype WriterCall =
    | WriteHeaderCall(code: int)
    | WriteCall(data: seq<byte>)
    | SetHeaderCall(key: string, values: seq<string>)  // an assignment into the map Header() returns

  /** The real response writer: it keeps every call it receives, in order, and the header map. */
  class ResponseSink {
    var calls: seq<WriterCall>
    var header: Header

    constructor ()
      ensures calls == [] && header == map[]
    {
      calls := [];
      header := map[];
    }

    method WriteHeader(code: int)
      modifies this
      ensures calls == old(calls) + [WriteHeaderCall(code)] && header == old(header)
    {
      calls := calls + [WriteHeaderCall(code)];
    }

    /** Sends `data`; the modelled transport accepts every byte. */
    method Write(data: seq<byte>) returns (n: int, err: Option<string>)
      modifies this
      ensures calls == old(calls) + [WriteCall(data)] && header == old(header)
      ensures n == |data| && err == None
    {
      calls := calls + [WriteCall(data)];
      n, err := |data|, None;
    }

    method SetHeader(key: string, values: seq<string>)
      modifies this
      ensures calls == old(calls) + [SetHeaderCall(key, values)]
      ensures header == old(header)[key := values]
    {
      calls := calls + [SetHeaderCall(key, values)];
      header := header[key := values];
    }
  }
}
