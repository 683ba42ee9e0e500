/** The request logger (internal/middleware/slog.go): a response writer that
    records the status the wrapped handler sets, and the middleware that
    writes one log entry per request unless the request is skipped. The
    wrapped handler is given as the sequence of calls it makes on its
    response writer; the clock is an input. */
module RequestLogger {
  import opened Common
  import opened Http

  /** A call the wrapped handler makes on its http.ResponseWriter. */
  datatype WriterCall = WriteHeader(code: int) | Write(bytes: seq<bv8>)

  /** statusRecorder: passes every call on to the real writer and keeps the
      status in `status` (0 until one is known). */
  class StatusRecorder {
    var status: int
    var passedOn: seq<WriterCall>

    constructor ()
      ensures status == 0 && passedOn == []
    {
      status := 0;
      passedOn := [];
    }

    method WriteHeader(code: int)
      modifies this
      ensures status == code
      ensures passedOn == old(passedOn) + [WriterCall.WriteHeader(code)]
    {
      status := code;
      passedOn := passedOn + [WriterCall.WriteHeader(code)];
    }

    /** The byte count and error that the real writer returns are not
        modelled. */
    method Write(b: seq<bv8>)
      modifies this
      ensures status == if old(status) == 0 then StatusOK else old(status)
      ensures passedOn == old(passedOn) + [WriterCall.Write(b)]
    {
      if status == 0 {
        status := StatusOK;
      }
      passedOn := passedOn + [WriterCall.Write(b)];
    }
  }

  /** The effect of one call on the recorded status. */
  function Step(status: int, call: WriterCall): int {
    match call
    case WriteHeader(code) => code
    case Write(_) => if status == 0 then StatusOK else status
  }

  /** The recorded status after `calls`, starting from `status`. */
  function Replay(status: int, calls: seq<WriterCall>): int
    decreases |calls|
  {
    if calls == [] then status else Replay(Step(status, calls[0]), calls[1..])
  }

  /** The status that is logged: the recorded one, or 200 when none was. */
  function LoggedStatus(calls: seq<WriterCall>): int {
    var s := Replay(0, calls);
    if s == 0 then StatusOK else s
  }

  predicate NoWriteHeader(calls: seq<WriterCall>) {
    forall i :: 0 <= i < |calls| ==> calls[i].Write?
  }

  datatype Request = Request(verb: string, path: string, remoteAddr: string)

  /** One log line: method, path, status, duration and remote address. */
  datatype Entry = Entry(verb: string, path: string, status: int, duration: int, remoteAddr: string)

  /** The decision RequestLogger makes first; a nil skip function skips
      nothing. */
  predicate Skipped(skip: Option<Request -> bool>, r: Request) {
    skip.Some? && skip.value(r)
  }

  lemma {:induction false} ReplayAppend(status: int, a: seq<WriterCall>, b: seq<WriterCall>)
    ensures Replay(status, a + b) == Replay(Replay(status, a), b)
    decreases |a|
  {
    if a != [] {
      assert (a + b)[1..] == a[1..] + b;
      ReplayAppend(Step(status, a[0]), a[1..], b);
    } else {
      assert a + b == b;
    }
  }

  /** RequestLogger(logger, skip, next) serving one request: the wrapped
      handler's calls reach the real writer unchanged, and exactly one entry
      is logged unless the request is skipped. `elapsed` is time.Since(start). */
  method Serve(skip: Option<Request -> bool>, r: Request, calls: seq<WriterCall>, elapsed: int)
    returns (entries: seq<Entry>, passedOn: seq<WriterCall>)
    ensures passedOn == calls
    ensures Skipped(skip, r) ==> entries == []
    ensures !Skipped(skip, r) ==> entries == [Entry(r.verb, r.path, LoggedStatus(calls), elapsed, r.remoteAddr)]
  {
    if skip.Some? && skip.value(r) {
      return [], calls;
    }
    var rec := new StatusRecorder();
    var i := 0;
    while i < |calls|
      invariant 0 <= i <= |calls|
      invariant rec.status == Replay(0, calls[..i])
      invariant rec.passedOn == calls[..i]
    {
      ReplayAppend(0, calls[..i], [calls[i]]);
      assert calls[..i + 1] == calls[..i] + [calls[i]];
      match calls[i] {
        case WriteHeader(code) => rec.WriteHeader(code);
        case Write(b) => rec.Write(b);
      }
      i := i + 1;
    }
    assert calls[..i] == calls;
    var status := rec.status;
    if status == 0 {
      status := StatusOK;
    }
    entries := [Entry(r.verb, r.path, status, elapsed, r.remoteAddr)];
    passedOn := rec.passedOn;
  }

  /** Writes never change a status that is already recorded. */
  lemma {:induction false} WritesKeepStatus(status: int, calls: seq<WriterCall>)
    requires status != 0 && NoWriteHeader(calls)
    ensures Replay(status, calls) == status
    decreases |calls|
  {
    if calls != [] {
      WritesKeepStatus(Step(status, calls[0]), calls[1..]);
    }
  }

  /** A handler that never calls WriteHeader is logged with status 200. */
  lemma DefaultsTo200(calls: seq<WriterCall>)
    requires NoWriteHeader(calls)
    ensures LoggedStatus(calls) == StatusOK
  {
    if calls != [] {
      WritesKeepStatus(StatusOK, calls[1..]);
    }
  }

  /** WriteHeader always records its code, so the last WriteHeader decides the
      logged status when it is followed only by writes. */
  lemma LastWriteHeaderWins(before: seq<WriterCall>, code: int, after: seq<WriterCall>)
    requires code != 0 && NoWriteHeader(after)
    ensures LoggedStatus(before + [WriterCall.WriteHeader(code)] + after) == code
  {
    ReplayAppend(0, before + [WriterCall.WriteHeader(code)], after);
    ReplayAppend(0, before, [WriterCall.WriteHeader(code)]);
    WritesKeepStatus(code, after);
  }
}
