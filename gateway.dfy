/** The embedding worker gateway: `callPythonService` runs the external
    process once, accumulates what it writes to standard output and standard
    error, and settles when the process closes. The process itself is a black
    box: its run is given as the sequence of data events it produced and its
    exit code, and JSON parsing is an abstract partial function. */
module Gateway {
  import opened Tasks

  /** One `data` event of the child process, already decoded to text. */
  datatype StreamEvent = Stdout(chunk: string) | Stderr(chunk: string)

  /** What the external process did: its data events in arrival order and the
      code reported by `close` (None when it was ended by a signal). */
  datatype ProcessRun = ProcessRun(events: seq<StreamEvent>, exitCode: Option<int>)

  /** How the promise returned by `callPythonService` settles. */
  datatype GatewayResult = Resolved(value: Json) | Rejected(message: string)

  /** `JSON.parse`: a partial function from text to a JSON value. */
  type Parser = string -> Option<Json>

  const EmptyObjectText := "{}"
  const DefaultFailure := "Python script failed"

  /** The chunks joined in order. */
  function Concat(chunks: seq<string>): string {
    if chunks == [] then "" else Concat(chunks[..|chunks| - 1]) + chunks[|chunks| - 1]
  }

  /** The chunks of the standard-output events, in arrival order. */
  function StdoutChunks(events: seq<StreamEvent>): seq<string> {
    if events == [] then []
    else
      var last := events[|events| - 1];
      StdoutChunks(events[..|events| - 1]) + (if last.Stdout? then [last.chunk] else [])
  }

  /** The chunks of the standard-error events, in arrival order. */
  function StderrChunks(events: seq<StreamEvent>): seq<string> {
    if events == [] then []
    else
      var last := events[|events| - 1];
      StderrChunks(events[..|events| - 1]) + (if last.Stderr? then [last.chunk] else [])
  }

  /** The `close` handler: exit code 0 resolves with the parse of the output
      (of `{}` when there was none) or with `[]` when parsing fails; any other
      code rejects with the error text, or a fixed message when there was none. */
  function Settle(exitCode: Option<int>, output: string, errors: string, parse: Parser): GatewayResult {
    if exitCode == Some(0) then
      match parse(if output == "" then EmptyObjectText else output)
      case Some(v) => Resolved(v)
      case None => Resolved(JArray([]))
    else
      Rejected(if errors == "" then DefaultFailure else errors)
  }

  /** The settled result of one process run. */
  function Settled(run: ProcessRun, parse: Parser): GatewayResult {
    Settle(run.exitCode, Concat(StdoutChunks(run.events)), Concat(StderrChunks(run.events)), parse)
  }

  /** `callPythonService`: `result += data` and `error += data` on each event,
      then the `close` decision. */
  method CallPythonService(run: ProcessRun, parse: Parser) returns (r: GatewayResult)
    ensures r == Settled(run, parse)
  {
    var result := "";
    var error := "";
    var i := 0;
    while i < |run.events|
      invariant 0 <= i <= |run.events|
      invariant result == Concat(StdoutChunks(run.events[..i]))
      invariant error == Concat(StderrChunks(run.events[..i]))
    {
      ghost var seen := run.events[..i];
      var e := run.events[i];
      assert run.events[..i + 1] == seen + [e];
      ChunksSnoc(seen, e);
      if e.Stdout? {
        ConcatSnoc(StdoutChunks(seen), e.chunk);
        result := result + e.chunk;
      } else {
        ConcatSnoc(StderrChunks(seen), e.chunk);
        error := error + e.chunk;
      }
      i := i + 1;
    }
    assert run.events[..i] == run.events;
    r := Settle(run.exitCode, result, error, parse);
  }

  /** One more chunk extends the accumulated text at its end. */
  lemma ConcatSnoc(chunks: seq<string>, chunk: string)
    ensures Concat(chunks + [chunk]) == Concat(chunks) + chunk
  {
    assert (chunks + [chunk])[..|chunks|] == chunks;
  }

  /** One more event extends the chunks of its own stream only. */
  lemma ChunksSnoc(events: seq<StreamEvent>, e: StreamEvent)
    ensures e.Stdout? ==> StdoutChunks(events + [e]) == StdoutChunks(events) + [e.chunk]
    ensures e.Stdout? ==> StderrChunks(events + [e]) == StderrChunks(events)
    ensures e.Stderr? ==> StderrChunks(events + [e]) == StderrChunks(events) + [e.chunk]
    ensures e.Stderr? ==> StdoutChunks(events + [e]) == StdoutChunks(events)
  {
    assert (events + [e])[..|events|] == events;
    assert StdoutChunks(events) + [] == StdoutChunks(events);
    assert StderrChunks(events) + [] == StderrChunks(events);
  }

  /** Concatenation respects the order of the chunks. */
  lemma {:induction false} ConcatAppend(a: seq<string>, b: seq<string>)
    ensures Concat(a + b) == Concat(a) + Concat(b)
    decreases |b|
  {
    if b == [] {
      assert a + b == a;
    } else {
      var b' := b[..|b| - 1];
      assert (a + b)[..|a + b| - 1] == a + b';
      ConcatAppend(a, b');
    }
  }

  /** Each stream is split from a run without reordering, whatever the interleaving. */
  lemma {:induction false} ChunksAppend(a: seq<StreamEvent>, b: seq<StreamEvent>)
    ensures StdoutChunks(a + b) == StdoutChunks(a) + StdoutChunks(b)
    ensures StderrChunks(a + b) == StderrChunks(a) + StderrChunks(b)
    decreases |b|
  {
    if b == [] {
      assert a + b == a;
    } else {
      var b' := b[..|b| - 1];
      assert (a + b)[..|a + b| - 1] == a + b';
      ChunksAppend(a, b');
    }
  }

  /** The text accumulated from a run, split at any point, is the text of the
      first part followed by the text of the second, on each stream. */
  lemma AccumulatedTextAppend(a: seq<StreamEvent>, b: seq<StreamEvent>)
    ensures Concat(StdoutChunks(a + b)) == Concat(StdoutChunks(a)) + Concat(StdoutChunks(b))
    ensures Concat(StderrChunks(a + b)) == Concat(StderrChunks(a)) + Concat(StderrChunks(b))
  {
    ChunksAppend(a, b);
    ConcatAppend(StdoutChunks(a), StdoutChunks(b));
    ConcatAppend(StderrChunks(a), StderrChunks(b));
  }

  /** Exit code 0 never rejects; it resolves with the parse of the output, of
      `{}` when the output is empty, and with `[]` when parsing fails. */
  lemma SuccessNeverRejects(output: string, errors: string, parse: Parser)
    ensures Settle(Some(0), output, errors, parse).Resolved?
    ensures output != "" && parse(output).Some? ==> Settle(Some(0), output, errors, parse) == Resolved(parse(output).value)
    ensures output == "" && parse(EmptyObjectText).Some? ==> Settle(Some(0), output, errors, parse) == Resolved(parse(EmptyObjectText).value)
    ensures parse(if output == "" then EmptyObjectText else output).None? ==> Settle(Some(0), output, errors, parse) == Resolved(JArray([]))
  {
  }

  /** With a parser that reads `{}` as the empty object, a silent successful
      process resolves with the empty object. */
  lemma SilentSuccessIsEmptyObject(errors: string, parse: Parser)
    requires parse(EmptyObjectText) == Some(JObject([]))
    ensures Settle(Some(0), "", errors, parse) == Resolved(JObject([]))
  {
  }

  /** Any other exit (a non-zero code, or a signal) rejects with the error
      text, or the fixed message when it is empty; the message is never empty. */
  lemma FailureRejects(exitCode: Option<int>, output: string, errors: string, parse: Parser)
    requires exitCode != Some(0)
    ensures Settle(exitCode, output, errors, parse).Rejected?
    ensures errors != "" ==> Settle(exitCode, output, errors, parse).message == errors
    ensures errors == "" ==> Settle(exitCode, output, errors, parse).message == DefaultFailure
    ensures Settle(exitCode, output, errors, parse).message != ""
  {
  }

  /** The standard error of a run never changes how a successful run resolves,
      and its standard output never changes how a failed run rejects. */
  lemma StreamsIndependent(exitCode: Option<int>, out1: string, out2: string, err1: string, err2: string, parse: Parser)
    ensures exitCode == Some(0) ==> Settle(exitCode, out1, err1, parse) == Settle(exitCode, out1, err2, parse)
    ensures exitCode != Some(0) ==> Settle(exitCode, out1, err1, parse) == Settle(exitCode, out2, err1, parse)
  {
  }
}
