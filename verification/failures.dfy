/** How a failure raised by `consume()` is rendered for the Ruby engine:
    `format_exception` gives a one-line description whose shape depends on
    the exception's category, `format_ruby_backtrace` gives one line per
    stack frame in the layout a Ruby backtrace has. */
module FailureFormat {
  import opened Outcomes
  import opened Strings
  import opened JsonValues

  /** One entry of `traceback.extract_tb`: file name, line number, function
      name and the source line, which is None when the source is missing. */
  datatype Frame = Frame(file: string, line: int, func: string, text: Option<string>)

  /** The attributes `format_exception` inspects, by category. */
  datatype ExcKind =
      /** urllib2.HTTPError: `getcode()` and `filename` (the URL). */
    | HttpError(code: int, url: Json)
      /** Any other EnvironmentError (IOError, OSError, URLError). */
    | EnvironmentError(errno: Json, filename: Json, strerror: Json)
      /** Anything else; `msg` is the attribute when the object has one. */
    | OtherError(msg: Option<Json>)

  /** A raised object: its class name, its category, `str(exc)`, and whether
      it derives from Exception (SystemExit and KeyboardInterrupt do not). */
  datatype Exc = Exc(cls: string, kind: ExcKind, text: string, isException: bool)

  /* ----------------------------------------------------------------------
     format_ruby_backtrace
     ---------------------------------------------------------------------- */

  /** `"%s" % text`, which shows a missing source line as None. */
  function ShowText(text: Option<string>): string
  {
    if text.Some? then text.value else "None"
  }

  /** ``"%s:%d: in `%s %s'" % (file, line, func, text)``. */
  function RenderFrame(f: Frame): string
  {
    f.file + ":" + ShowInt(f.line) + ": in `" + f.func + " " + ShowText(f.text) + "'"
  }

  /** `format_ruby_backtrace(trace)`: one rendered line per frame, in the
      same order. */
  function FormatRubyBacktrace(frames: seq<Frame>): (lines: seq<string>)
    ensures |lines| == |frames|
    ensures forall i :: 0 <= i < |frames| ==> lines[i] == RenderFrame(frames[i])
  {
    seq(|frames|, i requires 0 <= i < |frames| => RenderFrame(frames[i]))
  }

  /** How the receiving side reads a Ruby backtrace line: the file is the
      text before the first ':', the line number the digits after it. */
  function ParseRubyLocation(line: string): Option<(string, int)>
  {
    var parts := Split(line, ':');
    if |parts| >= 2 && |parts[1]| > 0 && AllDigits(parts[1]) then
      Some((parts[0], DecimalValue(parts[1])))
    else None
  }

  /** A rendered frame reads back as its file and line number, provided the
      file name has no ':' and the line number is not negative. */
  lemma RenderedFrameParses(f: Frame)
    requires ':' !in f.file && f.line >= 0
    ensures ParseRubyLocation(RenderFrame(f)) == Some((f.file, f.line))
  {
    var digits := ShowInt(f.line);
    var tail := " in `" + f.func + " " + ShowText(f.text) + "'";
    assert RenderFrame(f) == f.file + [':'] + (digits + [':'] + tail);
    SplitCons(f.file, digits + [':'] + tail, ':');
    assert AllDigits(digits);
    SplitCons(digits, tail, ':');
    DecimalRoundTrip(f.line);
  }

  /** Every line of a formatted backtrace reads back as its frame's file and
      line number, in the original order. */
  lemma RubyBacktraceParses(frames: seq<Frame>)
    requires forall i :: 0 <= i < |frames| ==> ':' !in frames[i].file && frames[i].line >= 0
    ensures forall i :: 0 <= i < |frames| ==>
      ParseRubyLocation(FormatRubyBacktrace(frames)[i]) == Some((frames[i].file, frames[i].line))
  {
    forall i | 0 <= i < |frames|
      ensures ParseRubyLocation(FormatRubyBacktrace(frames)[i]) == Some((frames[i].file, frames[i].line))
    {
      RenderedFrameParses(frames[i]);
    }
  }

  /* ----------------------------------------------------------------------
     format_exception
     ---------------------------------------------------------------------- */

  const HttpPrefix: string := "HTTPError: "

  /** `format_exception(exc)`, checking the categories in the code's order:
      HTTPError; EnvironmentError with a truthy filename; EnvironmentError
      with truthy errno and strerror; any other EnvironmentError; an object
      with a `msg` attribute; everything else. */
  function FormatException(e: Exc): (s: string)
    ensures |s| > 0
  {
    match e.kind
    case HttpError(code, url) =>
      HttpPrefix + ShowInt(code) + " " + Display(url)
    case EnvironmentError(errno, filename, strerror) =>
      if Truthy(filename) then
        e.cls + "(" + Display(errno) + "): " + Display(filename) + " " + Display(strerror)
      else if Truthy(errno) && Truthy(strerror) then
        e.cls + "(" + Display(errno) + "): " + Display(strerror)
      else
        e.cls + ": " + e.text
    case OtherError(msg) =>
      if msg.Some? then e.cls + ": " + Display(msg.value) else e.cls + ": " + e.text
  }

  /** How the engine reads the class out of a description: the text before
      the first ':' and, within it, before the first '('. */
  function ClassOf(s: string): string
  {
    Split(Split(s, ':')[0], '(')[0]
  }

  /** The HTTP status the description carries: the integer after
      "HTTPError: " up to the next space. */
  function HttpStatusOf(s: string): Option<int>
  {
    if |s| >= |HttpPrefix| && s[..|HttpPrefix|] == HttpPrefix then
      ParseInt(Split(s[|HttpPrefix|..], ' ')[0])
    else None
  }

  /** The error code the description carries: the integer between the
      first '(' and the ')' after it. */
  function ErrnoOf(s: string): Option<int>
  {
    var parts := Split(s, '(');
    if |parts| >= 2 then ParseInt(Split(parts[1], ')')[0]) else None
  }

  /** The text after the first occurrence of `c`, or "" when there is none. */
  function AfterFirst(s: string, c: char): string
    decreases |s|
  {
    if |s| == 0 then "" else if s[0] == c then s[1..] else AfterFirst(s[1..], c)
  }

  lemma {:induction false} AfterFirstCons(a: string, b: string, c: char)
    requires c !in a
    ensures AfterFirst(a + [c] + b, c) == b
    decreases |a|
  {
    if |a| == 0 {
      assert a + [c] + b == [c] + b;
    } else {
      assert (a + [c] + b)[1..] == a[1..] + [c] + b;
      AfterFirstCons(a[1..], b, c);
    }
  }

  /** How the engine reads the message out of a description: the text
      after the first ": ". */
  function DetailOf(s: string): string
  {
    var t := AfterFirst(s, ':');
    if |t| > 0 && t[0] == ' ' then t[1..] else t
  }

  /** Whether a description carries an error code: "(" right after the
      class name. */
  predicate ShowsErrno(s: string, cls: string)
  {
    |s| > |cls| && s[|cls|] == '('
  }

  /** Which category wins and what message the description carries:
      HTTP failures give the status and the URL; an environment failure
      with a truthy filename gives the filename and strerror, otherwise
      with truthy errno and strerror it gives strerror, otherwise
      `str(exc)`; any other failure gives its `msg` attribute when it has
      one and `str(exc)` otherwise. The error code is shown exactly in the
      first two environment cases. */
  lemma FormatExceptionDetail(e: Exc)
    requires ':' !in e.cls
    requires e.kind.EnvironmentError? ==> ':' !in Display(e.kind.errno)
    ensures var s := FormatException(e); match e.kind
      case HttpError(code, url) =>
        DetailOf(s) == ShowInt(code) + " " + Display(url)
      case EnvironmentError(errno, filename, strerror) =>
        && (ShowsErrno(s, e.cls) <==> Truthy(filename) || (Truthy(errno) && Truthy(strerror)))
        && (Truthy(filename) ==> DetailOf(s) == Display(filename) + " " + Display(strerror))
        && (!Truthy(filename) && Truthy(errno) && Truthy(strerror) ==> DetailOf(s) == Display(strerror))
        && (!Truthy(filename) && !(Truthy(errno) && Truthy(strerror)) ==> DetailOf(s) == e.text)
      case OtherError(msg) =>
        && !ShowsErrno(s, e.cls)
        && DetailOf(s) == if msg.Some? then Display(msg.value) else e.text
  {
    var s := FormatException(e);
    match e.kind
    case HttpError(code, url) =>
      var rest := " " + ShowInt(code) + " " + Display(url);
      assert s == "HTTPError" + [':'] + rest;
      AfterFirstCons("HTTPError", rest, ':');
      assert rest[1..] == ShowInt(code) + " " + Display(url);
    case EnvironmentError(errno, filename, strerror) =>
      if Truthy(filename) || (Truthy(errno) && Truthy(strerror)) {
        var msg := if Truthy(filename) then Display(filename) + " " + Display(strerror) else Display(strerror);
        var head := e.cls + "(" + Display(errno) + ")";
        assert s == head + [':'] + (" " + msg);
        assert ':' !in head;
        AfterFirstCons(head, " " + msg, ':');
        assert (" " + msg)[1..] == msg;
        assert s[|e.cls|] == '(';
      } else {
        assert s == e.cls + [':'] + (" " + e.text);
        AfterFirstCons(e.cls, " " + e.text, ':');
        assert (" " + e.text)[1..] == e.text;
        assert s[|e.cls|] == ':';
      }
    case OtherError(msg) =>
      var m := if msg.Some? then Display(msg.value) else e.text;
      assert s == e.cls + [':'] + (" " + m);
      AfterFirstCons(e.cls, " " + m, ':');
      assert (" " + m)[1..] == m;
      assert s[|e.cls|] == ':';
  }

  /** The description always names the failure's class first: "HTTPError"
      for HTTP failures, the exception's own class name otherwise. */
  lemma FormatExceptionNamesClass(e: Exc)
    requires ':' !in e.cls && '(' !in e.cls
    ensures ClassOf(FormatException(e)) == if e.kind.HttpError? then "HTTPError" else e.cls
  {
    var s := FormatException(e);
    match e.kind
    case HttpError(code, url) =>
      assert s == "HTTPError" + [':'] + (" " + ShowInt(code) + " " + Display(url));
      SplitCons("HTTPError", " " + ShowInt(code) + " " + Display(url), ':');
      SplitNoSep("HTTPError", '(');
    case EnvironmentError(errno, filename, strerror) =>
      if Truthy(filename) || (Truthy(errno) && Truthy(strerror)) {
        var rest := if Truthy(filename)
          then Display(errno) + "): " + Display(filename) + " " + Display(strerror)
          else Display(errno) + "): " + Display(strerror);
        assert s == (e.cls + "(") + rest;
        SplitPrefix(e.cls + "(", rest, ':');
        var first := Split(rest, ':')[0];
        assert Split(s, ':')[0] == e.cls + ['('] + first;
        SplitCons(e.cls, first, '(');
      } else {
        assert s == e.cls + [':'] + (" " + e.text);
        SplitCons(e.cls, " " + e.text, ':');
        SplitNoSep(e.cls, '(');
      }
    case OtherError(msg) =>
      var rest := if msg.Some? then " " + Display(msg.value) else " " + e.text;
      assert s == e.cls + [':'] + rest;
      SplitCons(e.cls, rest, ':');
      SplitNoSep(e.cls, '(');
  }

  /** An HTTP failure's status code reads back from its description. */
  lemma HttpStatusParses(e: Exc)
    requires e.kind.HttpError?
    ensures HttpStatusOf(FormatException(e)) == Some(e.kind.code)
  {
    var s := FormatException(e);
    var digits := ShowInt(e.kind.code);
    assert s[|HttpPrefix|..] == digits + [' '] + Display(e.kind.url);
    ShowIntChars(e.kind.code);
    assert ' ' !in digits;
    SplitCons(digits, Display(e.kind.url), ' ');
    ParseShowInt(e.kind.code);
  }

  /** An environment failure with an integer errno carries it in
      parentheses when its filename is truthy, or when errno and strerror
      both are. */
  lemma ErrnoParses(e: Exc, n: int)
    requires e.kind.EnvironmentError? && e.kind.errno == JInt(n)
    requires Truthy(e.kind.filename) || (n != 0 && Truthy(e.kind.strerror))
    requires '(' !in e.cls
    ensures ErrnoOf(FormatException(e)) == Some(n)
  {
    var s := FormatException(e);
    var digits := ShowInt(n);
    var tail := if Truthy(e.kind.filename)
      then ": " + Display(e.kind.filename) + " " + Display(e.kind.strerror)
      else ": " + Display(e.kind.strerror);
    assert s == e.cls + ['('] + (digits + [')'] + tail);
    SplitCons(e.cls, digits + [')'] + tail, '(');
    ShowIntChars(n);
    assert '(' !in digits + [')'];
    SplitPrefix(digits + [')'], tail, '(');
    assert ')' !in digits;
    SplitCons(digits, Split(tail, '(')[0], ')');
    ParseShowInt(n);
  }
}
