/** `LogEvent` (mocker/log.h:47-80): the record built for one message. The
    fixed-width C++ integer types are kept as subset types, so a getter can
    only return what fits its declared width. */
module LogEvents {

  type int32 = x: int | -0x8000_0000 <= x < 0x8000_0000
  type uint32 = x: int | 0 <= x < 0x1_0000_0000
  type uint64 = x: int | 0 <= x < 0x1_0000_0000_0000_0000

  datatype LogEvent = LogEvent(
    file: string,            // getFile()
    line: int32,             // getLine()
    elapse: uint32,          // getElapse()
    threadId: uint64,        // getThreadId(), a size_t widened from the uint32_t argument
    threadName: string,      // getThreadName()
    coroutineId: uint32,     // getCoroutineId()
    time: uint64,            // getTime()
    content: string,         // getContent(), what was written through getSS()
    loggerRealName: string   // getLoggerRealName()
  )

  /** The constructor: every getter reports its argument, the message body
      starts empty, and the logger name defaults to the empty string. */
  function NewLogEvent(file: string, line: int32, elapse: uint32, threadId: uint32,
                       threadName: string, coroutineId: uint32, time: uint64,
                       loggerRealName: string := ""): (e: LogEvent)
    ensures e.file == file && e.line == line && e.elapse == elapse
    ensures e.threadId == threadId && e.threadName == threadName
    ensures e.coroutineId == coroutineId && e.time == time
    ensures e.loggerRealName == loggerRealName
    ensures |e.content| == 0
  {
    LogEvent(file, line, elapse, threadId, threadName, coroutineId, time, "", loggerRealName)
  }

  /** `getSS() << text`: the text is added at the end of the message body and
      nothing else changes. */
  function Append(e: LogEvent, text: string): (r: LogEvent)
    ensures |r.content| == |e.content| + |text|
    ensures r.content[..|e.content|] == e.content && r.content[|e.content|..] == text
    ensures r.(content := e.content) == e
  {
    e.(content := e.content + text)
  }

  /** A sequence of `<<` writes, applied from first to last. */
  function AppendAll(e: LogEvent, pieces: seq<string>): LogEvent
    decreases |pieces|
  {
    if |pieces| == 0 then e
    else AppendAll(Append(e, pieces[0]), pieces[1..])
  }

  /** The pieces joined in order. */
  function Concat(pieces: seq<string>): string
    decreases |pieces|
  {
    if |pieces| == 0 then "" else pieces[0] + Concat(pieces[1..])
  }

  /** After any sequence of writes through `getSS()`, `getContent()` is the
      earlier body followed by the written pieces in order, and every other
      field is as the constructor left it. */
  lemma {:induction false} AppendAllContent(e: LogEvent, pieces: seq<string>)
    ensures AppendAll(e, pieces).content == e.content + Concat(pieces)
    ensures AppendAll(e, pieces).(content := e.content) == e
    decreases |pieces|
  {
    if |pieces| > 0 {
      var e' := Append(e, pieces[0]);
      AppendAllContent(e', pieces[1..]);
      assert e.content + pieces[0] + Concat(pieces[1..]) == e.content + (pieces[0] + Concat(pieces[1..]));
    }
  }

  /** A freshly built event whose body is written piece by piece carries
      exactly the concatenation of the pieces. */
  lemma {:induction false} NewEventContent(file: string, line: int32, elapse: uint32, threadId: uint32,
                                           threadName: string, coroutineId: uint32, time: uint64,
                                           loggerRealName: string, pieces: seq<string>)
    ensures var e := AppendAll(NewLogEvent(file, line, elapse, threadId, threadName, coroutineId, time, loggerRealName), pieces);
            e == NewLogEvent(file, line, elapse, threadId, threadName, coroutineId, time, loggerRealName)
                   .(content := Concat(pieces))
  {
    var e0 := NewLogEvent(file, line, elapse, threadId, threadName, coroutineId, time, loggerRealName);
    AppendAllContent(e0, pieces);
    assert e0.content + Concat(pieces) == Concat(pieces);
  }
}
