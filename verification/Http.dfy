// What the response writers pass to each other: header maps and calls.
module Http {
  import opened Bytes

  // Canonical field name to its values, as in Go's http.Header.
  type Headers = map<bytes, seq<bytes>>

  const CONTENT_TYPE: bytes := "Content-Type"
  const CONTENT_LENGTH: bytes := "Content-Length"
  const EVENT_STREAM: bytes := "text/event-stream"
  const JSON: bytes := "application/json"

  function Get(h: Headers, name: bytes): bytes {
    if name in h && h[name] != [] then h[name][0] else []
  }

  function Set(h: Headers, name: bytes, value: bytes): Headers { h[name := [value]] }

  predicate Contains(s: bytes, sub: bytes) { sub <= s || (s != [] && Contains(s[1..], sub)) }

  lemma {:induction false} ContainsExactly(s: bytes, sub: bytes)
    ensures Contains(s, sub) <==> exists i :: 0 <= i <= |s| && sub <= s[i..]
  {
    assert s[0..] == s;
    if s != [] {
      ContainsExactly(s[1..], sub);
      if Contains(s[1..], sub) {
        var i :| 0 <= i <= |s| - 1 && sub <= s[1..][i..];
        assert s[1..][i..] == s[i + 1..];
      }
      forall i | 0 < i <= |s| && sub <= s[i..] ensures Contains(s[1..], sub) {
        assert s[1..][i - 1..] == s[i..];
      }
    }
  }

  // One call on a response writer, with the header map it happened under.
  datatype Call =
    | Status(code: int, header: Headers)
    | Body(data: bytes, header: Headers)
    | Flush(header: Headers)

  // The writer these calls were made on has sent its headers: Go's sends them
  // with the first body or flush, a status alone waits.
  predicate Committed(calls: seq<Call>) { exists i :: 0 <= i < |calls| && !calls[i].Status? }

  // The body bytes a sequence of calls hands over.
  function BodyBytes(calls: seq<Call>): bytes {
    if calls == [] then []
    else
      var last := calls[|calls| - 1];
      BodyBytes(calls[..|calls| - 1]) + (if last.Body? then last.data else [])
  }

  lemma BodyBytesSnoc(calls: seq<Call>, c: Call)
    ensures BodyBytes(calls + [c]) == BodyBytes(calls) + (if c.Body? then c.data else [])
  {
    assert (calls + [c])[..|calls|] == calls;
  }

  lemma CommittedSnoc(calls: seq<Call>, c: Call)
    ensures Committed(calls + [c]) <==> Committed(calls) || !c.Status?
  {
    var all := calls + [c];
    assert all[|calls|] == c;
    assert forall i :: 0 <= i < |calls| ==> all[i] == calls[i];
  }

  // Nobody hands over bytes by status calls alone.
  lemma {:induction false} BytesAreCommitted(calls: seq<Call>)
    requires BodyBytes(calls) != []
    ensures Committed(calls)
  {
    var n := |calls| - 1;
    if calls[n].Status? {
      BytesAreCommitted(calls[..n]);
      CommittedSnoc(calls[..n], calls[n]);
      assert calls == calls[..n] + [calls[n]];
    }
  }

  lemma {:induction false} BodyBytesConcat(a: seq<Call>, b: seq<Call>)
    ensures BodyBytes(a + b) == BodyBytes(a) + BodyBytes(b)
    decreases |b|
  {
    if b == [] {
      assert a + b == a;
    } else {
      var n := |b| - 1;
      assert a + b == (a + b[..n]) + [b[n]];
      BodyBytesConcat(a, b[..n]);
      BodyBytesSnoc(a + b[..n], b[n]);
    }
  }
}
