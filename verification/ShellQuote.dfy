/** The receipt path quoting of cmd/asb-human/receipt_path.go, against the reader of
    each shell. */
module ShellQuote {
  import opened Bytes

  // ----- POSIX -----

  function EscapePosix(p: string): string {
    if p == [] then [] else (if p[0] == '\'' then "'\"'\"'" else [p[0]]) + EscapePosix(p[1..])
  }

  function QuotePosix(p: string): string {
    "'" + EscapePosix(p) + "'"
  }

  /** Word evaluation of the POSIX Shell Command Language: blanks separate words;
      single quotes (section 2.2.2) keep everything; double quotes (section 2.2.3)
      keep everything but the characters that expand. */
  datatype Mode = Between | InWord | InSingle | InDouble

  predicate Blank(c: char) {
    c == ' ' || c == '\t' || c == '\n'
  }

  predicate Active(c: char) {
    c in "$`\\|&;<>()*?[]#~=%!{}"
  }

  /** The words of `text`, or None when it needs an expansion or an open quote is left. */
  function Words(mode: Mode, text: string, word: string): Option<seq<string>>
    decreases |text|
  {
    if text == [] then
      match mode
      case Between => Some([])
      case InWord => Some([word])
      case _ => None
    else
      var c, rest := text[0], text[1..];
      match mode
      case InSingle => if c == '\'' then Words(InWord, rest, word) else Words(InSingle, rest, word + [c])
      case InDouble =>
        if c == '"' then Words(InWord, rest, word)
        else if c in "$`\\!" then None
        else Words(InDouble, rest, word + [c])
      case _ =>
        if Blank(c) then
          match Words(Between, rest, [])
          case None => None
          case Some(ws) => Some((if mode == InWord then [word] else []) + ws)
        else if c == '\'' then Words(InSingle, rest, word)
        else if c == '"' then Words(InDouble, rest, word)
        else if Active(c) then None
        else Words(InWord, rest, word + [c])
  }

  /** The five characters written for a single quote: out, a quoted quote, back in. */
  lemma ReadsQuote(rest: string, word: string)
    ensures Words(InSingle, "'\"'\"'" + rest, word) == Words(InSingle, rest, word + ['\''])
  {
    var t5 := "'" + rest;
    var t4 := "\"" + t5;
    var t3 := "'" + t4;
    var t2 := "\"" + t3;
    assert "'\"'\"'" + rest == "'" + t2;
    assert Words(InSingle, "'" + t2, word) == Words(InWord, t2, word) by { assert ("'" + t2)[1..] == t2; }
    assert Words(InWord, t2, word) == Words(InDouble, t3, word) by { assert t2[1..] == t3; }
    assert Words(InDouble, t3, word) == Words(InDouble, t4, word + ['\'']) by { assert t3[1..] == t4; }
    assert Words(InDouble, t4, word + ['\'']) == Words(InWord, t5, word + ['\'']) by { assert t4[1..] == t5; }
    assert Words(InWord, t5, word + ['\'']) == Words(InSingle, rest, word + ['\'']) by { assert t5[1..] == rest; }
  }

  /** Inside the quotes, the escaped text adds exactly the path to the word. */
  lemma {:induction false} ReadsEscaped(p: string, tail: string, word: string)
    ensures Words(InSingle, EscapePosix(p) + "'" + tail, word) == Words(InWord, tail, word + p)
    decreases |p|
  {
    var text := EscapePosix(p) + "'" + tail;
    if p == [] {
      assert text[0] == '\'' && text[1..] == tail && word + p == word;
    } else {
      var rest := EscapePosix(p[1..]) + "'" + tail;
      ReadsEscaped(p[1..], tail, word + [p[0]]);
      assert word + [p[0]] + p[1..] == word + p;
      if p[0] == '\'' {
        assert text == "'\"'\"'" + rest;
        ReadsQuote(rest, word);
      } else {
        assert text == [p[0]] + rest;
      }
    }
  }

  /** Quoted arguments separated by blanks. */
  function CommandLine(args: seq<string>): string {
    if args == [] then [] else QuotePosix(args[0]) + (if |args| == 1 then [] else " " + CommandLine(args[1..]))
  }

  /** Every list of arguments, whatever characters they contain, comes back word for word. */
  lemma {:induction false} CommandLineReads(args: seq<string>)
    ensures Words(Between, CommandLine(args), []) == Some(args)
    decreases |args|
  {
    if args != [] {
      var tail := if |args| == 1 then [] else " " + CommandLine(args[1..]);
      var text := CommandLine(args);
      assert text == "'" + (EscapePosix(args[0]) + "'" + tail);
      ReadsEscaped(args[0], tail, []);
      assert [] + args[0] == args[0];
      if |args| == 1 {
        assert args == [args[0]];
      } else {
        CommandLineReads(args[1..]);
        assert tail[1..] == CommandLine(args[1..]);
        assert args == [args[0]] + args[1..];
      }
    }
  }

  /** One quoted path is one word, equal to the path. */
  lemma PosixRoundTrip(p: string)
    ensures Words(Between, QuotePosix(p), []) == Some([p])
  {
    CommandLineReads([p]);
    assert CommandLine([p]) == QuotePosix(p);
  }

  // ----- PowerShell -----

  /** The five characters that the writer doubles. */
  predicate IsQuote(c: char) {
    c == '\'' || c == '\U{2018}' || c == '\U{2019}' || c == '\U{201A}' || c == '\U{201B}'
  }

  function EscapeWindows(p: string): string {
    if p == [] then [] else (if IsQuote(p[0]) then [p[0], p[0]] else [p[0]]) + EscapeWindows(p[1..])
  }

  function QuoteWindows(p: string): string {
    "'" + EscapeWindows(p) + "'"
  }

  /** What PowerShell reads as a single quote: the apostrophe and U+2018 to U+201B. */
  const QUOTES: set<char> := {'\'', '\U{2018}', '\U{2019}', '\U{201A}', '\U{201B}'}

  /** A literal string after its opening quote: any quote character ends it, unless
      another quote character follows, in which case the pair stands for the second. */
  function ReadLiteral(s: string): Option<(string, string)>
    decreases |s|
  {
    if s == [] then None
    else if s[0] !in QUOTES then Prepend(s[0], ReadLiteral(s[1..]))
    else if |s| >= 2 && s[1] in QUOTES then Prepend(s[1], ReadLiteral(s[2..]))
    else Some(([], s[1..]))
  }

  function Prepend(c: char, r: Option<(string, string)>): Option<(string, string)> {
    match r
    case None => None
    case Some((word, rest)) => Some(([c] + word, rest))
  }

  function ReadWindows(s: string): Option<(string, string)> {
    if s == [] || s[0] !in QUOTES then None else ReadLiteral(s[1..])
  }

  lemma QuotesAreDoubled(c: char)
    ensures IsQuote(c) <==> c in QUOTES
  {
  }

  lemma ReadsClosing(tail: string)
    requires tail == [] || tail[0] !in QUOTES
    ensures ReadLiteral("'" + tail) == Some(([], tail))
  {
    var s := "'" + tail;
    assert s[0] == '\'' && s[1..] == tail;
  }

  lemma ReadsChar(c: char, rest: string)
    ensures c !in QUOTES ==> ReadLiteral([c] + rest) == Prepend(c, ReadLiteral(rest))
    ensures c in QUOTES ==> ReadLiteral([c, c] + rest) == Prepend(c, ReadLiteral(rest))
  {
    assert ([c] + rest)[1..] == rest && ([c, c] + rest)[2..] == rest;
  }

  lemma {:induction false} ReadsDoubled(p: string, tail: string)
    requires tail == [] || tail[0] !in QUOTES
    ensures ReadLiteral(EscapeWindows(p) + "'" + tail) == Some((p, tail))
    decreases |p|
  {
    hide ReadLiteral, IsQuote;
    var s := EscapeWindows(p) + "'" + tail;
    if p == [] {
      ReadsClosing(tail);
      assert s == "'" + tail;
    } else {
      QuotesAreDoubled(p[0]);
      var rest := EscapeWindows(p[1..]) + "'" + tail;
      ReadsDoubled(p[1..], tail);
      ReadsChar(p[0], rest);
      if IsQuote(p[0]) {
        assert s == [p[0], p[0]] + rest;
      } else {
        assert s == [p[0]] + rest;
      }
      assert [p[0]] + p[1..] == p;
    }
  }

  /** For every path, runs of mixed quote characters included, the literal reads back
      as the path and nothing of what follows is taken. */
  lemma WindowsRoundTrip(p: string, tail: string)
    requires tail == [] || tail[0] !in QUOTES
    ensures ReadWindows(QuoteWindows(p) + tail) == Some((p, tail))
  {
    ReadsDoubled(p, tail);
    assert (QuoteWindows(p) + tail)[1..] == EscapeWindows(p) + "'" + tail;
  }

  /** quoteReceiptPath. */
  function QuoteReceiptPath(path: string, goos: string): string {
    if goos == "windows" then QuoteWindows(path) else QuotePosix(path)
  }

  /** The printed argument reads as the path in the shell of its system: in PowerShell on
      Windows, in a POSIX shell elsewhere. */
  lemma QuotedPathReads(path: string, goos: string)
    ensures goos == "windows" ==> ReadWindows(QuoteReceiptPath(path, goos)) == Some((path, []))
    ensures goos != "windows" ==> Words(Between, QuoteReceiptPath(path, goos), []) == Some([path])
  {
    hide QuotePosix, QuoteWindows, Words, ReadWindows;
    PosixRoundTrip(path);
    WindowsRoundTrip(path, []);
    assert QuoteWindows(path) + [] == QuoteWindows(path);
  }

  lemma QuotingIsInjective(p: string, q: string, goos: string)
    ensures QuoteReceiptPath(p, goos) == QuoteReceiptPath(q, goos) ==> p == q
  {
    hide QuotePosix, QuoteWindows, Words, ReadWindows;
    PosixRoundTrip(p);
    PosixRoundTrip(q);
    WindowsRoundTrip(p, []);
    WindowsRoundTrip(q, []);
    assert QuoteWindows(p) + [] == QuoteWindows(p) && QuoteWindows(q) + [] == QuoteWindows(q);
  }
}
