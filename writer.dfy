/**
 * loggingResponseWriter: a response writer that remembers the status code and
 * the body bytes the wrapped handler sends, while passing every call on to the
 * real writer unchanged.
 */
module Capture {
  import opened Wrappers
  import opened Http

  /** The code of the last WriteHeader call among `calls`, if there is one. */
  function LastCode(calls: seq<WriterCall>): Option<int> {
    if calls == [] then None
    else if calls[|calls| - 1].WriteHeaderCall? then Some(calls[|calls| - 1].code)
    else LastCode(calls[..|calls| - 1])
  }

  /** The data of the last Write call among `calls`, if there is one. */
  function LastWrite(calls: seq<WriterCall>): Option<seq<byte>> {
    if calls == [] then None
    else if calls[|calls| - 1].WriteCall? then Some(calls[|calls| - 1].data)
    else LastWrite(calls[..|calls| - 1])
  }

  /** The header map after the handler's assignments into it. */
  function HeadersAfter(h: Header, calls: seq<WriterCall>): Header {
    if calls == [] then h
    else
      var prior := HeadersAfter(h, calls[..|calls| - 1]);
      match calls[|calls| - 1]
      case SetHeaderCall(key, values) => prior[key := values]
      case _ => prior
  }

  /** The status a fresh capturing writer holds after `calls`: 0 unless WriteHeader was called. */
  function CapturedStatus(calls: seq<WriterCall>): int {
    LastCode(calls).GetOr(0)
  }

  /** The body a fresh capturing writer holds after `calls`: the last write only. */
  function CapturedBody(calls: seq<WriterCall>): seq<byte> {
    LastWrite(calls).GetOr([])
  }

  /** LastCode finds nothing exactly when no call sets the status. */
  lemma {:induction false} LastCodeNone(calls: seq<WriterCall>)
    ensures LastCode(calls).None? <==> forall i | 0 <= i < |calls| :: !calls[i].WriteHeaderCall?
  {
    if calls != [] {
      var front := calls[..|calls| - 1];
      LastCodeNone(front);
      assert forall i | 0 <= i < |front| :: front[i] == calls[i];
    }
  }

  /** The last WriteHeader call decides the status; later writes and header assignments do not. */
  lemma {:induction false} LastCodeWins(before: seq<WriterCall>, code: int, after: seq<WriterCall>)
    requires forall i | 0 <= i < |after| :: !after[i].WriteHeaderCall?
    ensures LastCode(before + [WriteHeaderCall(code)] + after) == Some(code)
    decreases |after|
  {
    var calls := before + [WriteHeaderCall(code)] + after;
    if after != [] {
      var after' := after[..|after| - 1];
      assert calls[..|calls| - 1] == before + [WriteHeaderCall(code)] + after';
      LastCodeWins(before, code, after');
    }
  }

  /** The last Write call decides the captured body; earlier writes are forgotten. */
  lemma {:induction false} LastWriteWins(before: seq<WriterCall>, data: seq<byte>, after: seq<WriterCall>)
    requires forall i | 0 <= i < |after| :: !after[i].WriteCall?
    ensures LastWrite(before + [WriteCall(data)] + after) == Some(data)
    decreases |after|
  {
    var calls := before + [WriteCall(data)] + after;
    if after != [] {
      var after' := after[..|after| - 1];
      assert calls[..|calls| - 1] == before + [WriteCall(data)] + after';
      LastWriteWins(before, data, after');
    }
  }

  class CapturingWriter {
    var status: int
    var body: seq<byte>
    const delegate: ResponseSink

    /** `&loggingResponseWriter{ResponseWriter: w}`: zero status, empty body. */
    constructor (w: ResponseSink)
      ensures delegate == w && status == 0 && body == []
    {
      delegate := w;
      status := 0;
      body := [];
    }

    /** Records `code` and passes it on. */
    method WriteHeader(code: int)
      modifies this, delegate
      ensures status == code && body == old(body)
      ensures delegate.calls == old(delegate.calls) + [WriteHeaderCall(code)]
      ensures delegate.header == old(delegate.header)
    {
      status := code;
      delegate.WriteHeader(code);
    }

    /** Replaces the captured body with `data` and passes `data` on, returning what the real writer returns. */
    method Write(data: seq<byte>) returns (n: int, err: Option<string>)
      modifies this, delegate
      ensures body == data && status == old(status)
      ensures delegate.calls == old(delegate.calls) + [WriteCall(data)]
      ensures delegate.header == old(delegate.header)
      ensures n == |data| && err == None
    {
      body := data;
      n, err := delegate.Write(data);
    }
  }

  /** The wrapped handler, making `calls` on the real writer directly. */
  method ServeDirect(sink: ResponseSink, calls: seq<WriterCall>)
    modifies sink
    ensures sink.calls == old(sink.calls) + calls
    ensures sink.header == HeadersAfter(old(sink.header), calls)
  {
    for i := 0 to |calls|
      invariant sink.calls == old(sink.calls) + calls[..i]
      invariant sink.header == HeadersAfter(old(sink.header), calls[..i])
    {
      assert calls[..i + 1][..i] == calls[..i];
      match calls[i]
      case WriteHeaderCall(code) =>
        sink.WriteHeader(code);
      case WriteCall(data) =>
        var _, _ := sink.Write(data);
      case SetHeaderCall(key, values) =>
        sink.SetHeader(key, values);
    }
    assert calls[..|calls|] == calls;
  }

  /**
   * The wrapped handler, making `calls` on a capturing writer: the real writer
   * receives exactly `calls`, and the wrapper ends up holding the last status
   * code and the last body written.
   */
  method ServeCaptured(w: CapturingWriter, calls: seq<WriterCall>)
    modifies w, w.delegate
    ensures w.delegate.calls == old(w.delegate.calls) + calls
    ensures w.delegate.header == HeadersAfter(old(w.delegate.header), calls)
    ensures w.status == LastCode(calls).GetOr(old(w.status))
    ensures w.body == LastWrite(calls).GetOr(old(w.body))
  {
    for i := 0 to |calls|
      invariant w.delegate.calls == old(w.delegate.calls) + calls[..i]
      invariant w.delegate.header == HeadersAfter(old(w.delegate.header), calls[..i])
      invariant w.status == LastCode(calls[..i]).GetOr(old(w.status))
      invariant w.body == LastWrite(calls[..i]).GetOr(old(w.body))
    {
      assert calls[..i + 1][..i] == calls[..i];
      match calls[i]
      case WriteHeaderCall(code) =>
        w.WriteHeader(code);
      case WriteCall(data) =>
        var _, _ := w.Write(data);
      case SetHeaderCall(key, values) =>
        w.delegate.SetHeader(key, values);
    }
    assert calls[..|calls|] == calls;
  }
}
