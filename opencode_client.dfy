/** The OpenCode client (src/opencode/client.ts): the per-user backend session
    id, the cleaning and truncation of the CLI's output, the mapping from how
    the CLI process ended to the reply or rejection, and the table of running
    processes that `cancel` consults. Spawning and killing processes is outside
    the model: a process is an opaque number, its output arrives as the chunks
    its streams delivered, and its end as an event. */
module OpenCodeClient {
  import opened Wrappers
  import opened Types
  import opened Text

  // ---------------------------------------------------------------------------
  // Backend session ids
  // ---------------------------------------------------------------------------

  /** `im-{platform}-{userId}`; the group is not part of it. */
  function SessionIdFor(msg: BridgeMessage): (id: string)
    ensures |id| > 3 && id[..3] == "im-"
  {
    "im-" + PlatformName(msg.platform) + "-" + msg.userId
  }

  /** Distinct users, or the same user id on distinct platforms, never share a
      backend session id; the same user shares one across groups and private chat. */
  lemma SessionIdInjective(m1: BridgeMessage, m2: BridgeMessage)
    ensures SessionIdFor(m1) == SessionIdFor(m2) <==> m1.platform == m2.platform && m1.userId == m2.userId
  {
    if SessionIdFor(m1) == SessionIdFor(m2) {
      var p1, p2 := PlatformName(m1.platform), PlatformName(m2.platform);
      var t1, t2 := SessionIdFor(m1)[3..], SessionIdFor(m2)[3..];
      assert t1 == p1 + ['-'] + m1.userId;
      assert t2 == p2 + ['-'] + m2.userId;
      SplitAtFirst(p1, m1.userId, '-');
      SplitAtFirst(p2, m2.userId, '-');
      assert p1 == Split(t1, '-')[0] == p2;
      assert m1.userId == t1[|p1| + 1..];
    }
  }

  // ---------------------------------------------------------------------------
  // Output cleaning
  // ---------------------------------------------------------------------------

  const Esc: char := '\U{1B}'
  const Bel: char := '\U{07}'
  const MaxOutput := 4000
  const TruncationNotice := "\n... (输出已截断)"
  const NoOutput := "(无输出)"

  predicate IsSgrParam(c: char) { IsDigit(c) || c == ';' }

  /** The length of the run of `[0-9;]` characters that starts `s`. */
  function ParamRun(s: string): (n: nat)
    ensures n <= |s|
    ensures forall i :: 0 <= i < n ==> IsSgrParam(s[i])
    ensures n < |s| ==> !IsSgrParam(s[n])
  {
    if s != [] && IsSgrParam(s[0]) then 1 + ParamRun(s[1..]) else 0
  }

  /** The length of the colour sequence `ESC [ [0-9;]* m` at the start of `s`,
      or 0 when `s` does not start with one. */
  function SgrLength(s: string): (n: nat)
    ensures n <= |s|
    ensures n > 0 ==> n >= 3 && s[0] == Esc
  {
    if |s| >= 2 && s[0] == Esc && s[1] == '[' then
      var k := ParamRun(s[2..]);
      if 2 + k < |s| && s[2 + k] == 'm' then 3 + k else 0
    else 0
  }

  /** `s.replace(/\x1b\[[0-9;]*m/g, '')`: colour sequences removed in one
      left-to-right pass. */
  function StripColours(s: string): (r: string)
    ensures |r| <= |s|
    decreases |s|
  {
    if s == [] then []
    else if SgrLength(s) > 0 then StripColours(s[SgrLength(s)..])
    else [s[0]] + StripColours(s[1..])
  }

  /** The position of the first BEL in `s` when no line terminator comes
      before it: where the lazy `.*?` stops. */
  function BelIndex(s: string): (r: Option<nat>)
    ensures r.Some? ==> r.value < |s| && s[r.value] == Bel
    ensures r.Some? ==> forall i :: 0 <= i < r.value ==> s[i] != Bel && !IsLineTerminator(s[i])
  {
    if s == [] || IsLineTerminator(s[0]) then None
    else if s[0] == Bel then Some(0)
    else
      match BelIndex(s[1..])
      case None => None
      case Some(i) => Some(i + 1)
  }

  /** The length of the sequence `ESC ] .*? BEL` at the start of `s`, or 0. */
  function OscLength(s: string): (n: nat)
    ensures n <= |s|
    ensures n > 0 ==> n >= 3 && s[0] == Esc
  {
    if |s| >= 2 && s[0] == Esc && s[1] == ']' then
      match BelIndex(s[2..])
      case None => 0
      case Some(i) => i + 3
    else 0
  }

  /** `s.replace(/\x1b\].*?\x07/g, '')`. */
  function StripTitles(s: string): (r: string)
    ensures |r| <= |s|
    decreases |s|
  {
    if s == [] then []
    else if OscLength(s) > 0 then StripTitles(s[OscLength(s)..])
    else [s[0]] + StripTitles(s[1..])
  }

  /** Text without any ESC passes both strippers untouched. */
  lemma {:induction false} PlainTextKept(s: string)
    requires Esc !in s
    ensures StripColours(s) == s && StripTitles(s) == s
    decreases |s|
  {
    if s != [] {
      assert s[0] != Esc;
      assert Esc !in s[1..];
      PlainTextKept(s[1..]);
    }
  }

  /** A colour sequence disappears entirely and the text after it is
      cleaned as if it stood alone. */
  lemma ColourSequenceRemoved(params: string, rest: string)
    requires forall i :: 0 <= i < |params| ==> IsSgrParam(params[i])
    ensures StripColours([Esc, '['] + params + "m" + rest) == StripColours(rest)
  {
    var s := [Esc, '['] + params + "m" + rest;
    assert s[2..] == params + ("m" + rest);
    ParamRunOf(params, "m" + rest);
    assert SgrLength(s) == 3 + |params|;
    assert s[3 + |params|..] == rest;
  }

  lemma {:induction false} ParamRunOf(params: string, rest: string)
    requires forall i :: 0 <= i < |params| ==> IsSgrParam(params[i])
    requires rest == [] || !IsSgrParam(rest[0])
    ensures ParamRun(params + rest) == |params|
  {
    if params != [] {
      assert (params + rest)[1..] == params[1..] + rest;
      ParamRunOf(params[1..], rest);
    } else {
      assert params + rest == rest;
    }
  }

  /** A title sequence whose text holds no BEL and no line break disappears
      entirely. */
  lemma TitleSequenceRemoved(title: string, rest: string)
    requires forall i :: 0 <= i < |title| ==> title[i] != Bel && !IsLineTerminator(title[i])
    ensures StripTitles([Esc, ']'] + title + [Bel] + rest) == StripTitles(rest)
  {
    var s := [Esc, ']'] + title + [Bel] + rest;
    assert s[2..] == title + ([Bel] + rest);
    BelIndexOf(title, [Bel] + rest);
    assert OscLength(s) == |title| + 3;
    assert s[|title| + 3..] == rest;
  }

  lemma {:induction false} BelIndexOf(title: string, rest: string)
    requires forall i :: 0 <= i < |title| ==> title[i] != Bel && !IsLineTerminator(title[i])
    requires rest != [] && rest[0] == Bel
    ensures BelIndex(title + rest) == Some(|title|)
  {
    if title != [] {
      assert (title + rest)[1..] == title[1..] + rest;
      BelIndexOf(title[1..], rest);
    } else {
      assert title + rest == rest;
    }
  }

  /** The cleaned output: colour sequences, then title sequences removed,
      then trimmed. */
  function Clean(output: string): (r: string)
    ensures |r| <= |output|
    ensures r == [] || (!IsWhitespace(r[0]) && !IsWhitespace(r[|r| - 1]))
  {
    Trim(StripTitles(StripColours(output)))
  }

  /** `formatOutput`: the cleaned output, cut to 4000 characters plus a
      notice when longer, and a placeholder when nothing is left. */
  function FormatOutput(output: string): (r: string)
    ensures r != ""
    ensures Clean(output) == "" ==> r == NoOutput
    ensures 0 < |Clean(output)| <= MaxOutput ==> r == Clean(output)
    ensures |Clean(output)| > MaxOutput ==> r == Clean(output)[..MaxOutput] + TruncationNotice
    ensures |r| <= MaxOutput + |TruncationNotice|
  {
    var cleaned := Clean(output);
    var limited := if |cleaned| > MaxOutput then cleaned[..MaxOutput] + TruncationNotice else cleaned;
    if limited == "" then NoOutput else limited
  }

  /** Short plain output with no escape sequences and no surrounding
      whitespace is returned exactly as the CLI printed it. */
  lemma PlainOutputUnchanged(output: string)
    requires output != "" && |output| <= MaxOutput && Esc !in output
    requires !IsWhitespace(output[0]) && !IsWhitespace(output[|output| - 1])
    ensures FormatOutput(output) == output
  {
    PlainTextKept(output);
    TrimOfTrimmed(output);
  }

  // ---------------------------------------------------------------------------
  // How a run ends
  // ---------------------------------------------------------------------------

  const ErrorPrefix := "❌ OpenCode 返回错误 (code "
  const UnknownError := "Unknown error"
  const TimeoutText := "OpenCode process timeout"

  /** The exit code as a template literal prints it (`null` after a signal). */
  function CodeText(code: Option<int>): string {
    match code
    case None => "null"
    case Some(c) => IntToString(c)
  }

  /** `stderr || stdout || 'Unknown error'`. */
  function Detail(stdout: string, stderr: string): (r: string)
    ensures r != ""
    ensures stderr != "" ==> r == stderr
    ensures stderr == "" && stdout != "" ==> r == stdout
  {
    if stderr != "" then stderr else if stdout != "" then stdout else UnknownError
  }

  /** The reply a closed process resolves with: the formatted output on exit
      code 0, and otherwise an error text naming the code. */
  function CloseReply(code: Option<int>, stdout: string, stderr: string): (r: BridgeReply)
    ensures r.content != ""
    ensures !r.atSender && r.replyTo.None?
    ensures code == Some(0) ==> r.content == FormatOutput(stdout)
    ensures code != Some(0) ==>
      ErrorPrefix <= r.content && r.content[|ErrorPrefix|..] == CodeText(code) + "):\n" + Detail(stdout, stderr)
  {
    if code == Some(0) then PlainReply(FormatOutput(stdout))
    else
      var rest := CodeText(code) + "):\n" + Detail(stdout, stderr);
      assert ErrorPrefix + CodeText(code) + "):\n" + Detail(stdout, stderr) == ErrorPrefix + rest;
      PlainReply(ErrorPrefix + rest)
  }

  /** A non-zero exit resolves (it does not reject) with a text naming the
      code and then stderr, else stdout, else the fallback text. */
  lemma FailedRunNamesCode(c: int, stdout: string, stderr: string)
    requires c != 0
    ensures CloseReply(Some(c), stdout, stderr).content ==
      ErrorPrefix + IntToString(c) + "):\n" + (if stderr != "" then stderr else if stdout != "" then stdout else UnknownError)
  {
    var r := CloseReply(Some(c), stdout, stderr);
    assert r.content == ErrorPrefix + r.content[|ErrorPrefix|..];
  }

  /** The text a stream delivered in the order of its `data` events. */
  function Concat(chunks: seq<string>): string {
    if chunks == [] then "" else Concat(chunks[..|chunks| - 1]) + chunks[|chunks| - 1]
  }

  /** How the stream was cut into chunks does not matter. */
  lemma {:induction false} ConcatAppend(a: seq<string>, b: seq<string>)
    ensures Concat(a + b) == Concat(a) + Concat(b)
    decreases |b|
  {
    if b == [] {
      assert a + b == a;
    } else {
      assert (a + b)[..|a + b| - 1] == a + b[..|b| - 1];
      ConcatAppend(a, b[..|b| - 1]);
    }
  }

  /** For chunks that are already decoded text, cutting one chunk in two does
      not change the collected text. The source decodes each byte chunk on
      its own with `data.toString()`, so this does not cover a multi-byte
      UTF-8 character split across two chunks, which decodes differently. */
  lemma ChunkingIrrelevant(a: seq<string>, x: string, y: string, b: seq<string>)
    ensures Concat(a + [x + y] + b) == Concat(a + [x, y] + b)
  {
    ConcatAppend(a + [x + y], b);
    ConcatAppend(a + [x, y], b);
    assert Concat(a + [x + y]) == Concat(a) + (x + y);
    assert (a + [x, y])[..|a| + 1] == a + [x];
    assert Concat(a + [x, y]) == Concat(a + [x]) + y;
    assert Concat(a + [x]) == Concat(a) + x;
  }

  /** `stdout += data.toString()` for every `data` event. */
  method Collect(chunks: seq<string>) returns (text: string)
    ensures text == Concat(chunks)
  {
    text := "";
    var i := 0;
    while i < |chunks|
      invariant 0 <= i <= |chunks|
      invariant text == Concat(chunks[..i])
    {
      assert chunks[..i + 1][..i] == chunks[..i];
      text := text + chunks[i];
      i := i + 1;
    }
    assert chunks[..|chunks|] == chunks;
  }

  /** How a spawned process ended, as the client observes it. */
  datatype ProcessEnd =
    | Closed(code: Option<int>)
    | Errored(error: string)
    | TimedOut

  type ProcessId = nat

  /** The client's table of running CLI processes, keyed by backend session id. */
  class Client {
    var pending: map<string, ProcessId>
    var killed: seq<ProcessId>

    constructor()
      ensures pending == map[] && killed == []
    {
      pending := map[];
      killed := [];
    }

    /** The start of `sendMessage`: the new process is registered under the
        message's session id, replacing any process already there. */
    method Spawn(msg: BridgeMessage, proc: ProcessId) returns (sessionId: string)
      modifies this`pending
      ensures sessionId == SessionIdFor(msg)
      ensures pending == old(pending)[sessionId := proc]
    {
      sessionId := SessionIdFor(msg);
      pending := pending[sessionId := proc];
    }

    /** An event that ends a run: `close` and `error` remove the session id
        from the table and settle the promise; the 5-minute timeout kills the
        process and rejects but leaves the entry, which the process's later
        `close` or `error` removes. Output chunks are accumulated as they
        arrived. */
    method Finish(sessionId: string, proc: ProcessId, end: ProcessEnd,
                  stdoutChunks: seq<string>, stderrChunks: seq<string>)
      returns (r: Result<BridgeReply, string>)
      modifies this`pending, this`killed
      ensures pending == (if end.TimedOut? then old(pending) else old(pending) - {sessionId})
      ensures killed == (if end.TimedOut? then old(killed) + [proc] else old(killed))
      ensures end.Closed? ==> r == Ok(CloseReply(end.code, Concat(stdoutChunks), Concat(stderrChunks)))
      ensures end.Errored? ==> r == Err(end.error)
      ensures end.TimedOut? ==> r == Err(TimeoutText)
    {
      var stdout := Collect(stdoutChunks);
      var stderr := Collect(stderrChunks);
      match end
      case Closed(code) =>
        pending := pending - {sessionId};
        r := Ok(CloseReply(code, stdout, stderr));
      case Errored(error) =>
        pending := pending - {sessionId};
        r := Err(error);
      case TimedOut =>
        killed := killed + [proc];
        r := Err(TimeoutText);
    }

    /** `cancel`: kills and forgets the process registered under the id and
        reports whether there was one. */
    method Cancel(sessionId: string) returns (cancelled: bool)
      modifies this`pending, this`killed
      ensures cancelled <==> sessionId in old(pending)
      ensures cancelled ==> killed == old(killed) + [old(pending)[sessionId]] && pending == old(pending) - {sessionId}
      ensures !cancelled ==> killed == old(killed) && pending == old(pending)
    {
      if sessionId in pending {
        killed := killed + [pending[sessionId]];
        pending := pending - {sessionId};
        cancelled := true;
      } else {
        cancelled := false;
      }
    }
  }

  /** Once a run's process has closed or failed, cancelling its session
      finds nothing to kill. */
  method CancelAfterFinish(c: Client, msg: BridgeMessage, proc: ProcessId, end: ProcessEnd,
                           out: seq<string>, err: seq<string>)
    returns (cancelled: bool)
    requires !end.TimedOut?
    modifies c
    ensures !cancelled
    ensures SessionIdFor(msg) !in c.pending
    ensures c.killed == old(c.killed)
  {
    var id := c.Spawn(msg, proc);
    var _ := c.Finish(id, proc, end, out, err);
    cancelled := c.Cancel(id);
  }

  /** A timed-out run stays registered until its process closes: a cancel in
      between still finds it and kills it a second time. */
  method CancelAfterTimeout(c: Client, msg: BridgeMessage, proc: ProcessId, out: seq<string>, err: seq<string>)
    returns (r: Result<BridgeReply, string>, cancelled: bool)
    modifies c
    ensures r == Err(TimeoutText)
    ensures cancelled
    ensures c.killed == old(c.killed) + [proc, proc]
    ensures SessionIdFor(msg) !in c.pending
  {
    var id := c.Spawn(msg, proc);
    r := c.Finish(id, proc, TimedOut, out, err);
    assert c.pending[id] == proc;
    cancelled := c.Cancel(id);
  }

  /** The close that follows a timeout removes the entry, so a later cancel
      finds nothing; the process is killed once, by the timeout. */
  method TimeoutThenClose(c: Client, msg: BridgeMessage, proc: ProcessId, code: Option<int>,
                          out: seq<string>, err: seq<string>)
    returns (cancelled: bool)
    modifies c
    ensures !cancelled
    ensures SessionIdFor(msg) !in c.pending
    ensures c.killed == old(c.killed) + [proc]
  {
    var id := c.Spawn(msg, proc);
    var _ := c.Finish(id, proc, TimedOut, out, err);
    assert id in c.pending;
    var _ := c.Finish(id, proc, Closed(code), out, err);
    cancelled := c.Cancel(id);
  }
}
