/**
 The two loops that push a byte slice into an io.Writer which may accept part of
 it: writeFull of internal/lsp/framing.go and writeAll of
 internal/telemetry/jsonl.go.
 */
module ByteSink {

  /** An io.Writer by what it has accepted: one Write takes some of the bytes
      offered, in order, and may report an error besides. */
  class Sink {
    var bytes: string

    method Write(p: string) returns (n: nat, failed: bool)
      modifies this
      ensures n <= |p| && bytes == old(bytes) + p[..n]
    {
      n :| 0 <= n <= |p|;
      failed := *;
      bytes := bytes + p[..n];
    }
  }

  /** The completion callback, by how often it ran and what was on the sink then. */
  class Callback {
    var runs: nat
    var seen: string

    method Run(w: Sink)
      modifies this
      ensures runs == old(runs) + 1 && seen == w.bytes
    {
      runs, seen := runs + 1, w.bytes;
    }
  }

  datatype Outcome = Ok | WriterError | ShortWrite

  /** Writes until everything is accepted, an error comes, or no progress is made.
      What was accepted is always a prefix of the data, and `written` says which. The
      callback runs exactly on success, when the whole of the data is on the sink. */
  method WriteFull(w: Sink, data: string, complete: Callback) returns (written: nat, outcome: Outcome)
    modifies w, complete
    ensures written <= |data| && w.bytes == old(w.bytes) + data[..written]
    ensures outcome == Ok ==> written == |data|
    ensures outcome == ShortWrite ==> written < |data|
    ensures if outcome == Ok then complete.runs == old(complete.runs) + 1 && complete.seen == old(w.bytes) + data
            else complete.runs == old(complete.runs) && complete.seen == old(complete.seen)
  {
    written := 0;
    while written < |data|
      invariant written <= |data| && w.bytes == old(w.bytes) + data[..written]
      invariant complete.runs == old(complete.runs) && complete.seen == old(complete.seen)
      decreases |data| - written
    {
      var n, failed := w.Write(data[written..]);
      assert data[..written] + data[written..][..n] == data[..written + n];
      written := written + n;
      if failed {
        return written, WriterError;
      }
      if n == 0 {
        return written, ShortWrite;
      }
    }
    assert data[..written] == data;
    complete.Run(w);
    outcome := Ok;
  }

  /** The telemetry form, which drops what was accepted from the front. */
  method WriteAll(w: Sink, line: string) returns (ok: bool, ghost reached: nat)
    modifies w
    ensures reached <= |line| && w.bytes == old(w.bytes) + line[..reached]
    ensures ok ==> reached == |line|
  {
    var p := line;
    reached, ok := 0, false;
    while |p| > 0
      invariant reached <= |line| && p == line[reached..]
      invariant w.bytes == old(w.bytes) + line[..reached]
      decreases |p|
    {
      var n, failed := w.Write(p);
      assert line[..reached] + p[..n] == line[..reached + n];
      p := p[n..];
      reached := reached + n;
      if failed || n == 0 {
        return;
      }
    }
    ok := true;
  }
}
