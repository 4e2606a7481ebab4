/**
 * The relay's logger: one line of text per event for the log file, built from
 * a timestamp, a level tag and the message, followed by one indented line
 * per interesting field of an optional error object. The console receives
 * the raw message. The timestamp is a parameter (the clock is left out), and
 * the file and console are described as a list of effects.
 */
module Logger {
  import opened Wrappers
  import opened JsValue

  /** The five logger methods. */
  datatype Level = Info | Warn | Error | Debug | Success

  /** The tag written between brackets in the log file. */
  function Tag(level: Level): (t: string)
    ensures |t| >= 4
    ensures forall k :: 0 <= k < |t| ==> 'A' <= t[k] <= 'Z'
  {
    match level
    case Info => "INFO"
    case Warn => "WARN"
    case Error => "ERROR"
    case Debug => "DEBUG"
    case Success => "SUCCESS"
  }

  /** The console stream a level writes its raw message to. */
  datatype Stream = StdLog | StdWarn | StdError

  function StreamOf(level: Level): (s: Stream)
    ensures s == StdWarn <==> level.Warn?
    ensures s == StdError <==> level.Error?
  {
    match level
    case Info => StdLog
    case Debug => StdLog
    case Success => StdLog
    case Warn => StdWarn
    case Error => StdError
  }

  /** Only `warn` and `error` forward their error argument; the others format with `null`. */
  function PassedError(level: Level, error: Value): (r: Value)
    ensures (level.Warn? || level.Error?) ==> r == error
    ensures !(level.Warn? || level.Error?) ==> !Truthy(r)
  {
    if level.Warn? || level.Error? then error else Null
  }

  /** The first line: `[timestamp] [tag] message`. */
  function Header(ts: string, tag: string, message: string): (h: string)
    ensures |h| == |ts| + |tag| + |message| + 6
    ensures h[0] == '[' && h[1..1 + |ts|] == ts
    ensures h[|ts| + 4..|ts| + 4 + |tag|] == tag
    ensures h[|h| - |message|..] == message
  {
    var h := "[" + ts + "] [" + tag + "] " + message;
    assert forall k :: 0 <= k < |ts| ==> h[1 + k] == ts[k];
    assert forall k :: 0 <= k < |tag| ==> h[|ts| + 4 + k] == tag[k];
    assert forall k :: 0 <= k < |message| ==> h[|h| - |message| + k] == message[k];
    h
  }

  const Bullet := "\n  └─ "

  /** One optional detail line: present only when its value is truthy. */
  function Detail(name: string, v: Value): string {
    if Truthy(v) then Bullet + name + ": " + Display(v) else ""
  }

  /** The Telegram response body of an error, when `error.response && error.response.body` holds. */
  function TelegramBody(error: Value): Option<Value>
    requires !error.Nullish()
  {
    var response := Member(error, "response");
    if Truthy(response) && Truthy(Member(response, "body")) then Some(Member(response, "body")) else None
  }

  /** The lines for the error's own `code`, `message` and `stack`, in that order. */
  function ErrorLines(error: Value): string
    requires !error.Nullish()
  {
    Detail("Error Code", Member(error, "code"))
    + Detail("Error Message", Member(error, "message"))
    + Detail("Stack Trace", Member(error, "stack"))
  }

  /** The lines for the Telegram body's `error_code` and `description`, when there is a body. */
  function TelegramLines(error: Value): string
    requires !error.Nullish()
  {
    match TelegramBody(error)
    case None => ""
    case Some(body) =>
      Detail("Telegram Error Code", Member(body, "error_code"))
      + Detail("Telegram Description", Member(body, "description"))
  }

  /**
   * The log-file text for one event. Without a truthy error it is the header
   * alone; otherwise the header is followed by the error's own lines and
   * then the Telegram lines.
   */
  function FormatLog(ts: string, tag: string, message: string, error: Value): (log: string)
    ensures |Header(ts, tag, message)| <= |log| && log[..|Header(ts, tag, message)|] == Header(ts, tag, message)
    ensures !Truthy(error) ==> log == Header(ts, tag, message)
  {
    var log := Header(ts, tag, message);
    if Truthy(error) then log + ErrorLines(error) + TelegramLines(error) else log
  }

  // A second description of the same text: the candidate fields as a list,
  // filtered to the truthy ones, rendered one line each.

  datatype Field = Field(name: string, value: Value)

  /** The fields an error may contribute, in the order they are written. */
  function Fields(error: Value): (fs: seq<Field>)
    ensures !Truthy(error) ==> fs == []
    ensures Truthy(error) ==> 3 <= |fs| <= 5
    ensures Truthy(error) ==> (|fs| == 5 <==> TelegramBody(error).Some?)
  {
    if !Truthy(error) then []
    else
      var own := [Field("Error Code", Member(error, "code")),
                  Field("Error Message", Member(error, "message")),
                  Field("Stack Trace", Member(error, "stack"))];
      match TelegramBody(error)
      case None => own
      case Some(body) =>
        own + [Field("Telegram Error Code", Member(body, "error_code")),
               Field("Telegram Description", Member(body, "description"))]
  }

  /** The truthy fields, in their original order. */
  function Shown(fs: seq<Field>): (r: seq<Field>)
    ensures |r| <= |fs|
  {
    if fs == [] then []
    else if Truthy(fs[0].value) then [fs[0]] + Shown(fs[1..])
    else Shown(fs[1..])
  }

  /** The shown fields are exactly the truthy ones among the candidates. */
  lemma {:induction false} ShownMembers(fs: seq<Field>)
    ensures forall f :: f in Shown(fs) <==> f in fs && Truthy(f.value)
    decreases |fs|
  {
    if fs != [] {
      ShownMembers(fs[1..]);
      assert fs == [fs[0]] + fs[1..];
    }
  }

  /** One indented line per field. */
  function Render(fs: seq<Field>): string {
    if fs == [] then "" else Bullet + fs[0].name + ": " + Display(fs[0].value) + Render(fs[1..])
  }

  lemma {:induction false} RenderAppend(a: seq<Field>, b: seq<Field>)
    ensures Render(a + b) == Render(a) + Render(b)
    decreases |a|
  {
    if a != [] {
      assert (a + b)[1..] == a[1..] + b;
      RenderAppend(a[1..], b);
    } else {
      assert a + b == b;
    }
  }

  lemma {:induction false} ShownAppend(a: seq<Field>, b: seq<Field>)
    ensures Shown(a + b) == Shown(a) + Shown(b)
    decreases |a|
  {
    if a != [] {
      assert (a + b)[1..] == a[1..] + b;
      ShownAppend(a[1..], b);
    } else {
      assert a + b == b;
    }
  }

  /** A single optional line is the rendering of that field when shown. */
  lemma DetailIsShownField(name: string, v: Value)
    ensures Detail(name, v) == Render(Shown([Field(name, v)]))
  {
    assert [Field(name, v)][1..] == [];
    if Truthy(v) {
      assert Shown([Field(name, v)]) == [Field(name, v)];
    }
  }

  /** Rendering the fields one at a time is rendering the shown list. */
  lemma RenderShownSplit(fs: seq<Field>, f: Field)
    ensures Render(Shown(fs)) + Detail(f.name, f.value) == Render(Shown(fs + [f]))
  {
    ShownAppend(fs, [f]);
    RenderAppend(Shown(fs), Shown([f]));
    DetailIsShownField(f.name, f.value);
  }

  /** Three optional lines in a row render the shown part of those three fields. */
  lemma RenderThree(f1: Field, f2: Field, f3: Field)
    ensures Detail(f1.name, f1.value) + Detail(f2.name, f2.value) + Detail(f3.name, f3.value)
            == Render(Shown([f1, f2, f3]))
  {
    RenderShownSplit([], f1);
    Snoc([], f1);
    assert Render(Shown([])) == "";
    RenderShownSplit([f1], f2);
    Snoc([f1], f2);
    RenderShownSplit([f1, f2], f3);
    Snoc([f1, f2], f3);
  }

  lemma Assoc<T>(a: seq<T>, b: seq<T>, c: seq<T>)
    ensures a + (b + c) == a + b + c
  {
  }

  /** One element after a short sequence, as a display. */
  lemma Snoc<T>(xs: seq<T>, x: T)
    ensures |xs| == 0 ==> xs + [x] == [x]
    ensures |xs| == 1 ==> xs + [x] == [xs[0], x]
    ensures |xs| == 2 ==> xs + [x] == [xs[0], xs[1], x]
    ensures |xs| == 3 ==> xs + [x] == [xs[0], xs[1], xs[2], x]
    ensures |xs| == 4 ==> xs + [x] == [xs[0], xs[1], xs[2], xs[3], x]
  {
  }

  /** The error's own fields, the first three candidates, render its own lines. */
  lemma ErrorLinesRender(error: Value)
    requires Truthy(error)
    ensures ErrorLines(error) == Render(Shown(Fields(error)[..3]))
  {
    var f1 := Field("Error Code", Member(error, "code"));
    var f2 := Field("Error Message", Member(error, "message"));
    var f3 := Field("Stack Trace", Member(error, "stack"));
    RenderThree(f1, f2, f3);
    assert Fields(error)[..3] == [f1, f2, f3];
  }

  /** The candidates after the third, present only with a Telegram body, render the Telegram lines. */
  lemma TelegramLinesRender(error: Value)
    requires Truthy(error)
    ensures TelegramLines(error) == Render(Shown(Fields(error)[3..]))
  {
    var fs := Fields(error);
    match TelegramBody(error)
    case None =>
      assert fs[3..] == [];
      assert Render(Shown(fs[3..])) == "";
    case Some(body) =>
      var f4 := Field("Telegram Error Code", Member(body, "error_code"));
      var f5 := Field("Telegram Description", Member(body, "description"));
      assert fs[3..] == [f4, f5];
      RenderShownSplit([], f4);
      Snoc([], f4);
      assert Render(Shown([])) == "";
      RenderShownSplit([f4], f5);
      Snoc([f4], f5);
  }

  /** Both blocks together render all the shown fields. */
  lemma DetailLinesRender(error: Value)
    requires Truthy(error)
    ensures Render(Shown(Fields(error))) == ErrorLines(error) + TelegramLines(error)
  {
    var fs := Fields(error);
    ErrorLinesRender(error);
    TelegramLinesRender(error);
    ShownAppend(fs[..3], fs[3..]);
    RenderAppend(Shown(fs[..3]), Shown(fs[3..]));
    assert fs == fs[..3] + fs[3..];
  }

  /**
   * `formatLog` writes exactly the header followed by one line per truthy
   * field of the error, in the fixed field order.
   */
  lemma FormatLogRendersShownFields(ts: string, tag: string, message: string, error: Value)
    ensures FormatLog(ts, tag, message, error) == Header(ts, tag, message) + Render(Shown(Fields(error)))
  {
    var h := Header(ts, tag, message);
    if !Truthy(error) {
      assert Render(Shown([])) == "";
    } else {
      DetailLinesRender(error);
      Assoc(h, ErrorLines(error), TelegramLines(error));
    }
  }

  /** The Telegram lines appear only when the error carries a response body. */
  lemma TelegramLinesNeedBody(error: Value)
    requires Truthy(error) && TelegramBody(error).None?
    ensures forall f :: f in Shown(Fields(error)) ==> f.name in {"Error Code", "Error Message", "Stack Trace"}
  {
    ShownMembers(Fields(error));
  }

  /** What one logger call does, in order. */
  datatype Effect =
    | Console(stream: Stream, args: seq<string>)
    | Append(text: string)

  /**
   * A logger method: the raw message to the level's console stream, then the
   * formatted line (plus a newline) appended to the log file. A failure to
   * create the directory or to append is reported on the error stream and
   * swallowed, so no method throws because of it.
   */
  function LogEffects(level: Level, ts: string, message: string, error: Value, writeFailure: Option<string>): (effects: seq<Effect>)
    ensures |effects| == 2
    ensures effects[0] == Console(StreamOf(level), [message])
    ensures writeFailure.None? <==> effects[1].Append?
    ensures writeFailure.None? ==> effects[1] == Append(FormatLog(ts, Tag(level), message, PassedError(level, error)) + "\n")
    ensures writeFailure.Some? ==> effects[1] == Console(StdError, ["Failed to write to log file:", writeFailure.value])
  {
    var text := FormatLog(ts, Tag(level), message, PassedError(level, error));
    [Console(StreamOf(level), [message])] + match writeFailure
      case None => [Append(text + "\n")]
      case Some(reason) => [Console(StdError, ["Failed to write to log file:", reason])]
  }

  /**
   * The appended text is the header, then one detail line per truthy field
   * of the error `warn` or `error` was handed, then a newline; `info`,
   * `debug` and `success` write the header alone whatever error they are
   * handed.
   */
  lemma LoggedLine(level: Level, ts: string, message: string, error: Value)
    ensures var line := LogEffects(level, ts, message, error, None)[1].text;
            var h := Header(ts, Tag(level), message);
            |h| < |line| && line[..|h|] == h && line[|line| - 1] == '\n'
    ensures !(level.Warn? || level.Error?) ==>
              LogEffects(level, ts, message, error, None)[1] == Append(Header(ts, Tag(level), message) + "\n")
    ensures (level.Warn? || level.Error?) ==>
              LogEffects(level, ts, message, error, None)[1] ==
                Append(Header(ts, Tag(level), message) + Render(Shown(Fields(error))) + "\n")
  {
    FormatLogRendersShownFields(ts, Tag(level), message, error);
    var text := FormatLog(ts, Tag(level), message, PassedError(level, error));
    var h := Header(ts, Tag(level), message);
    assert LogEffects(level, ts, message, error, None)[1].text == text + "\n";
    assert (text + "\n")[..|h|] == text[..|h|];
  }

  /** The level tags are pairwise different, so a log line names its level. */
  lemma TagsDistinct(a: Level, b: Level)
    requires Tag(a) == Tag(b)
    ensures a == b
  {
  }

  /**
   * The error handed to `logger.error` for a rejected Telegram request: its
   * code, message, Telegram error code and description are written, in that
   * order, and the absent stack is skipped.
   */
  lemma TelegramErrorSample()
    ensures var body := Obj(map["error_code" := Num(409), "description" := Str("Test description")]);
            var error := Obj(map["code" := Str("TEST_CODE"), "message" := Str("Test error"),
                                 "response" := Obj(map["body" := body])]);
            Shown(Fields(error)) == [Field("Error Code", Str("TEST_CODE")), Field("Error Message", Str("Test error")),
                                     Field("Telegram Error Code", Num(409)), Field("Telegram Description", Str("Test description"))]
  {
    var body := Obj(map["error_code" := Num(409), "description" := Str("Test description")]);
    var error := Obj(map["code" := Str("TEST_CODE"), "message" := Str("Test error"),
                         "response" := Obj(map["body" := body])]);
    var f1 := Field("Error Code", Str("TEST_CODE"));
    var f2 := Field("Error Message", Str("Test error"));
    var f3 := Field("Stack Trace", Undefined);
    var f4 := Field("Telegram Error Code", Num(409));
    var f5 := Field("Telegram Description", Str("Test description"));
    assert TelegramBody(error) == Some(body);
    assert Fields(error) == [f1, f2, f3] + [f4, f5] == [f1, f2, f3, f4, f5];
    assert [f1, f2, f3, f4, f5][1..] == [f2, f3, f4, f5];
    assert [f2, f3, f4, f5][1..] == [f3, f4, f5];
    assert [f3, f4, f5][1..] == [f4, f5];
    assert [f4, f5][1..] == [f5];
    assert [f5][1..] == [];
    assert Shown([f5]) == [f5];
    assert Shown([f4, f5]) == [f4] + [f5];
    Cons(f4, [f5]);
    assert Shown([f3, f4, f5]) == [f4, f5];
    assert Shown([f2, f3, f4, f5]) == [f2] + [f4, f5];
    Cons(f2, [f4, f5]);
    assert Shown([f1, f2, f3, f4, f5]) == [f1] + [f2, f4, f5];
    Cons(f1, [f2, f4, f5]);
  }

  /** A one-element sequence in front of a short one, as a display. */
  lemma Cons<T>(x: T, xs: seq<T>)
    ensures |xs| == 1 ==> [x] + xs == [x, xs[0]]
    ensures |xs| == 2 ==> [x] + xs == [x, xs[0], xs[1]]
    ensures |xs| == 3 ==> [x] + xs == [x, xs[0], xs[1], xs[2]]
  {
  }
}
