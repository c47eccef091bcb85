/** The curl command line, and the shell rules it has to survive. */
module ShellCommand {
  import opened Prelude
  import opened Decimals

  // --- The printer

  /** Every single quote becomes: close the string, an escaped quote, open it again. */
  function EscapeQuotes(s: string): string {
    if s == [] then []
    else (if s[0] == '\'' then "'\\''" else [s[0]]) + EscapeQuotes(s[1..])
  }

  function ShellQuote(s: string): string {
    "'" + EscapeQuotes(s) + "'"
  }

  const ALLOWED_METHODS: seq<string> := ["GET", "POST", "PUT", "PATCH", "HEAD", "OPTIONS"]

  datatype MethodError = DeleteNotAllowed | UnsupportedMethod(name: string)

  /** `upper` is the library's uppercase conversion. */
  function ParseMethod(name: string, upper: string -> string): (r: Result<string, MethodError>)
    ensures r.Ok? <==> upper(name) in ALLOWED_METHODS
    ensures r.Ok? ==> r.value == upper(name)
    ensures r == Err(DeleteNotAllowed) <==> upper(name) == "DELETE"
    ensures r.Err? && upper(name) != "DELETE" ==> r == Err(UnsupportedMethod(upper(name)))
  {
    var canonical := upper(name);
    if canonical == "DELETE" then Err(DeleteNotAllowed)
    else if canonical in ALLOWED_METHODS then Ok(canonical)
    else Err(UnsupportedMethod(canonical))
  }

  method BuildCurlCommand(url: string, verb: string, headers: seq<(string, string)>, body: Option<string>,
      timeoutSecs: nat)
    returns (command: string)
    ensures command == Join(Rendered(CurlWords(url, verb, headers, body, timeoutSecs)), " ")
    ensures verb in ALLOWED_METHODS ==>
      match Tokenize(Between, command)
      case Some(argv) =>
        AllClean(url, headers, body) && AreCurlArguments(argv, url, verb, headers, body, timeoutSecs)
      case None => !AllClean(url, headers, body)
  {
    var parts := ["curl", "-si", "--max-time", Decimal(timeoutSecs), "-X", verb];
    ghost var words := FixedWords(verb, timeoutSecs);
    for i := 0 to |headers|
      invariant words == FixedWords(verb, timeoutSecs) + HeaderWords(headers[..i])
      invariant parts == Rendered(words)
    {
      var (key, value) := headers[i];
      parts := parts + ["-H"];
      parts := parts + [ShellQuote(key + ": " + value)];
      assert headers[..i + 1][..i] == headers[..i];
      words := words + [Plain("-H"), Quoted(key + ": " + value)];
    }
    assert headers[..|headers|] == headers;
    if body.Some? {
      parts := parts + ["--data-raw"];
      parts := parts + [ShellQuote(body.value)];
      words := words + [Plain("--data-raw"), Quoted(body.value)];
    }
    parts := parts + [ShellQuote(url)];
    words := words + [Quoted(url)];
    assert words == CurlWords(url, verb, headers, body, timeoutSecs);
    assert parts == Rendered(words);
    if verb in ALLOWED_METHODS {
      CurlCommandReads(url, verb, headers, body, timeoutSecs);
      CurlArguments(url, verb, headers, body, timeoutSecs);
    }
    return Join(parts, " ");
  }

  // --- What the command is meant to be

  /** A word of the command, and whether its spelling is quoted. */
  datatype Word = Plain(value: string) | Quoted(value: string)

  function Render(w: Word): string {
    if w.Plain? then w.value else ShellQuote(w.value)
  }

  function Rendered(words: seq<Word>): (parts: seq<string>)
    ensures |parts| == |words|
    ensures forall i | 0 <= i < |words| :: parts[i] == Render(words[i])
  {
    seq(|words|, i requires 0 <= i < |words| => Render(words[i]))
  }

  function Plains(texts: seq<string>): (words: seq<Word>)
    ensures |words| == |texts| && forall i | 0 <= i < |texts| :: words[i] == Plain(texts[i])
  {
    seq(|texts|, i requires 0 <= i < |texts| => Plain(texts[i]))
  }

  function FixedWords(verb: string, timeoutSecs: nat): seq<Word> {
    Plains(["curl", "-si", "--max-time", Decimal(timeoutSecs), "-X", verb])
  }

  function HeaderWords(headers: seq<(string, string)>): seq<Word> {
    if headers == [] then []
    else
      var last := headers[|headers| - 1];
      HeaderWords(headers[..|headers| - 1]) + [Plain("-H"), Quoted(last.0 + ": " + last.1)]
  }

  function CurlWords(url: string, verb: string, headers: seq<(string, string)>, body: Option<string>, timeoutSecs: nat)
    : (words: seq<Word>)
    ensures words != []
  {
    FixedWords(verb, timeoutSecs) + HeaderWords(headers) + DataWords(body) + [Quoted(url)]
  }

  function DataWords(body: Option<string>): seq<Word> {
    if body.Some? then [Plain("--data-raw"), Quoted(body.value)] else []
  }

  function Values(words: seq<Word>): (argv: seq<string>)
    ensures |argv| == |words|
    ensures forall i | 0 <= i < |words| :: argv[i] == words[i].value
  {
    seq(|words|, i requires 0 <= i < |words| => words[i].value)
  }

  // --- The shell: token recognition and quote removal for one simple command
  // (IEEE Std 1003.1-2017, Shell Command Language, sections 2.2.1, 2.2.2 and 2.3)

  /** Between words, inside a word, inside single quotes, or just after a backslash. */
  datatype Mode = Between | InWord(word: string) | InQuotes(word: string) | AfterBackslash(before: Mode)

  /** Characters that stand for themselves wherever they appear in a word.  Everything
      else outside quotes can start an operator, an expansion, a pattern or a comment. */
  predicate Ordinary(c: char) {
    'a' <= c <= 'z' || 'A' <= c <= 'Z' || '0' <= c <= '9'
    || c == '-' || c == '_' || c == '.' || c == '/' || c == ':' || c == ',' || c == '@' || c == '+'
  }

  const NUL: char := '\0'

  function SoFar(mode: Mode): string {
    match mode
    case Between => []
    case InWord(w) => w
    case InQuotes(w) => w
    case AfterBackslash(before) => SoFar(before)
  }

  /** The arguments a shell would pass, or `None` when the text is not one simple command
      free of expansions, or holds a NUL. */
  function Tokenize(mode: Mode, text: string): Option<seq<string>>
    decreases |text|
  {
    if text == [] then
      match mode
      case Between => Some([])
      case InWord(w) => Some([w])
      case _ => None
    else
      var c, rest := text[0], text[1..];
      if c == NUL then None else
      match mode
      case InQuotes(w) =>
        if c == '\'' then Tokenize(InWord(w), rest) else Tokenize(InQuotes(w + [c]), rest)
      case AfterBackslash(before) =>
        if c == '\n' then Tokenize(before, rest) else Tokenize(InWord(SoFar(before) + [c]), rest)
      case _ =>
        if c == '\'' then Tokenize(InQuotes(SoFar(mode)), rest)
        else if c == '\\' then Tokenize(AfterBackslash(mode), rest)
        else if c == ' ' || c == '\t' then
          if mode.InWord? then Prepend(mode.word, Tokenize(Between, rest)) else Tokenize(Between, rest)
        else if Ordinary(c) then Tokenize(InWord(SoFar(mode) + [c]), rest)
        else None
  }

  function Prepend(word: string, words: Option<seq<string>>): Option<seq<string>> {
    if words.None? then None else Some([word] + words.value)
  }

  // --- The shell undoes the printer

  predicate NulFree(s: string) {
    NUL !in s
  }

  /** Closing the quotes, an escaped quote and opening them again adds one quote. */
  lemma QuoteInside(w: string, inner: string)
    ensures Tokenize(InQuotes(w), "'\\''" + inner) == Tokenize(InQuotes(w + ['\'']), inner)
  {
    var third, fourth := "''" + inner, "'" + inner;
    var second := "\\" + third;
    var text := "'\\''" + inner;
    assert text[1..] == second && second[1..] == third && third[1..] == fourth && fourth[1..] == inner;
    assert Tokenize(InQuotes(w), text) == Tokenize(InWord(w), second);
    assert Tokenize(InWord(w), second) == Tokenize(AfterBackslash(InWord(w)), third);
    assert Tokenize(AfterBackslash(InWord(w)), third) == Tokenize(InWord(w + ['\'']), fourth);
  }

  lemma OtherInside(w: string, c: char, inner: string)
    requires c != '\''
    ensures Tokenize(InQuotes(w), [c] + inner) == if c == NUL then None else Tokenize(InQuotes(w + [c]), inner)
  {
    assert ([c] + inner)[1..] == inner;
  }

  lemma NulFreeFirst(s: string)
    requires s != []
    ensures NulFree(s) <==> s[0] != NUL && NulFree(s[1..])
  {
  }

  /** Reading the inside of a quoted value and its closing quote appends the value, whatever it holds. */
  lemma {:induction false} QuotedInside(w: string, s: string, rest: string)
    ensures Tokenize(InQuotes(w), EscapeQuotes(s) + ("'" + rest))
         == if NulFree(s) then Tokenize(InWord(w + s), rest) else None
    decreases |s|
  {
    if s == [] {
      assert ("'" + rest)[1..] == rest;
      assert EscapeQuotes(s) + ("'" + rest) == "'" + rest;
      assert w + s == w;
    } else {
      var inner := EscapeQuotes(s[1..]) + ("'" + rest);
      QuotedInside(w + [s[0]], s[1..], rest);
      Assoc(w, [s[0]], s[1..]);
      assert [s[0]] + s[1..] == s;
      NulFreeFirst(s);
      Assoc(if s[0] == '\'' then "'\\''" else [s[0]], EscapeQuotes(s[1..]), "'" + rest);
      if s[0] == '\'' {
        QuoteInside(w, inner);
      } else {
        OtherInside(w, s[0], inner);
      }
    }
  }

  predicate PlainText(s: string) {
    s == [] || (Ordinary(s[0]) && PlainText(s[1..]))
  }

  lemma {:induction false} PlainInside(mode: Mode, s: string, rest: string)
    requires PlainText(s) && s != [] && (mode.Between? || mode.InWord?)
    ensures Tokenize(mode, s + rest) == Tokenize(InWord(SoFar(mode) + s), rest)
    decreases |s|
  {
    assert (s + rest)[1..] == s[1..] + rest;
    var next := InWord(SoFar(mode) + [s[0]]);
    if |s| == 1 {
      assert s == [s[0]] && s[1..] + rest == rest;
    } else {
      PlainInside(next, s[1..], rest);
      assert SoFar(mode) + [s[0]] + s[1..] == SoFar(mode) + s;
    }
  }

  lemma {:induction false} PlainNulFree(s: string)
    requires PlainText(s)
    ensures NulFree(s)
  {
    if s == [] {
    } else {
      PlainNulFree(s[1..]);
      assert s == [s[0]] + s[1..];
    }
  }

  predicate Printable(w: Word) {
    w.Plain? ==> w.value != [] && PlainText(w.value)
  }

  ghost predicate AllPrintable(words: seq<Word>) {
    words == [] || (Printable(words[0]) && AllPrintable(words[1..]))
  }

  ghost predicate AllNulFree(words: seq<Word>) {
    words == [] || (NulFree(words[0].value) && AllNulFree(words[1..]))
  }

  lemma {:induction false} AllConcat(a: seq<Word>, b: seq<Word>)
    ensures AllPrintable(a + b) <==> AllPrintable(a) && AllPrintable(b)
    ensures AllNulFree(a + b) <==> AllNulFree(a) && AllNulFree(b)
  {
    if a == [] {
      assert a + b == b;
    } else {
      assert (a + b)[1..] == a[1..] + b;
      AllConcat(a[1..], b);
    }
  }

  lemma ShellQuoteThen(s: string, rest: string)
    ensures ShellQuote(s) + rest == "'" + (EscapeQuotes(s) + ("'" + rest))
  {
    Assoc("'" + EscapeQuotes(s), "'", rest);
    Assoc("'", EscapeQuotes(s), "'" + rest);
  }

  /** Each printed word is read back as its value, up to whatever follows it. */
  lemma WordReads(w: Word, rest: string)
    requires Printable(w)
    ensures Tokenize(Between, Render(w) + rest)
         == if NulFree(w.value) then Tokenize(InWord(w.value), rest) else None
  {
    assert [] + w.value == w.value;
    if w.Plain? {
      PlainInside(Between, w.value, rest);
      PlainNulFree(w.value);
    } else {
      var inside := EscapeQuotes(w.value) + ("'" + rest);
      ShellQuoteThen(w.value, rest);
      assert ("'" + inside)[1..] == inside;
      QuotedInside([], w.value, rest);
    }
  }

  /** A printed command is read back word for word, unless a value holds a NUL, which no
      argument can. */
  lemma {:induction false} WordsRead(words: seq<Word>)
    requires words != [] && AllPrintable(words)
    ensures Tokenize(Between, Join(Rendered(words), " "))
         == if AllNulFree(words) then Some(Values(words)) else None
    decreases |words|
  {
    var first, more := words[0], words[1..];
    var parts := Rendered(words);
    if more == [] {
      WordReads(first, []);
      assert Render(first) + [] == Render(first) == Join(parts, " ");
      assert Values(words) == [first.value];
    } else {
      assert parts[1..] == Rendered(more);
      var rest := Join(Rendered(more), " ");
      assert Join(parts, " ") == Render(first) + (" " + rest);
      WordReads(first, " " + rest);
      SpaceEndsWord(first.value, rest);
      WordsRead(more);
      assert Values(words) == [first.value] + Values(more);
    }
  }

  lemma SpaceEndsWord(word: string, rest: string)
    ensures Tokenize(InWord(word), " " + rest) == Prepend(word, Tokenize(Between, rest))
  {
    assert (" " + rest)[1..] == rest;
  }

  /** Tokenizing the printed curl command yields exactly the intended arguments, one word
      for each URL, header and body whatever quotes, spaces, backslashes and newlines they
      hold, and it does so exactly when none of them holds a NUL.  The time limit is read back
      as the number it was. */
  lemma CurlCommandReads(url: string, verb: string, headers: seq<(string, string)>, body: Option<string>,
      timeoutSecs: nat)
    requires verb in ALLOWED_METHODS
    ensures
      var words := CurlWords(url, verb, headers, body, timeoutSecs);
      Tokenize(Between, Join(Rendered(words), " "))
        == if NulFree(url) && (forall h | h in headers :: NulFree(h.0) && NulFree(h.1))
          && (body.Some? ==> NulFree(body.value))
           then Some(Values(words)) else None
    ensures var seconds := Values(CurlWords(url, verb, headers, body, timeoutSecs))[3];
      (forall c | c in seconds :: IsDigit(c)) && DecimalValue(seconds) == timeoutSecs
  {
    TimeLimitReads(url, verb, headers, body, timeoutSecs);
    CurlWordsPrintable(url, verb, headers, body, timeoutSecs);
    WordsRead(CurlWords(url, verb, headers, body, timeoutSecs));
  }

  /** The arguments curl is to get, for a GET with one header, say:
      curl -si --max-time 30 -X GET -H 'name: value' url. */
  ghost predicate AreCurlArguments(argv: seq<string>, url: string, verb: string, headers: seq<(string, string)>,
      body: Option<string>, timeoutSecs: nat)
  {
    var n := |headers|;
    |argv| == 7 + 2 * n + (if body.Some? then 2 else 0)
    && argv[0] == "curl" && argv[1] == "-si" && argv[2] == "--max-time" && argv[4] == "-X" && argv[5] == verb
    && (forall c | c in argv[3] :: IsDigit(c)) && DecimalValue(argv[3]) == timeoutSecs
    && (forall i | 0 <= i < n :: HeaderAt(argv, headers[i], 6 + 2 * i))
    && (body.Some? ==> argv[6 + 2 * n] == "--data-raw" && argv[7 + 2 * n] == body.value)
    && argv[|argv| - 1] == url
  }

  predicate HeaderAt(argv: seq<string>, header: (string, string), at: nat) {
    at + 1 < |argv| && argv[at] == "-H" && argv[at + 1] == header.0 + ": " + header.1
  }

  lemma {:induction false} HeaderWordsAre(headers: seq<(string, string)>)
    ensures |HeaderWords(headers)| == 2 * |headers|
    ensures forall i | 0 <= i < |headers| :: HeaderAt(Values(HeaderWords(headers)), headers[i], 2 * i)
  {
    if headers == [] {
    } else {
      var n := |headers| - 1;
      var before, all := Values(HeaderWords(headers[..n])), Values(HeaderWords(headers));
      HeaderWordsAre(headers[..n]);
      forall i | 0 <= i < |headers| ensures HeaderAt(all, headers[i], 2 * i) {
        if i < n {
          assert HeaderAt(before, headers[..n][i], 2 * i);
        }
      }
    }
  }

  lemma HeaderLater(before: seq<Word>, words: seq<Word>, after: seq<Word>, header: (string, string), at: nat)
    requires HeaderAt(Values(words), header, at)
    ensures HeaderAt(Values(before + words + after), header, |before| + at)
  {
    IndexOfThree(before, words, after, |before| + at);
    IndexOfThree(before, words, after, |before| + at + 1);
  }

  lemma CurlArguments(url: string, verb: string, headers: seq<(string, string)>, body: Option<string>, timeoutSecs: nat)
    ensures AreCurlArguments(Values(CurlWords(url, verb, headers, body, timeoutSecs)), url, verb, headers, body,
      timeoutSecs)
  {
    var fixed, middle, data := FixedWords(verb, timeoutSecs), HeaderWords(headers), DataWords(body);
    var words := CurlWords(url, verb, headers, body, timeoutSecs);
    DecimalRoundTrip(timeoutSecs);
    HeaderWordsAre(headers);
    Assoc(fixed + middle, data, [Quoted(url)]);
    forall i | 0 <= i < |headers| ensures HeaderAt(Values(words), headers[i], 6 + 2 * i) {
      HeaderLater(fixed, middle, data + [Quoted(url)], headers[i], 2 * i);
    }
  }

  lemma TimeLimitReads(url: string, verb: string, headers: seq<(string, string)>, body: Option<string>,
      timeoutSecs: nat)
    ensures |Values(CurlWords(url, verb, headers, body, timeoutSecs))| > 3
    ensures var seconds := Values(CurlWords(url, verb, headers, body, timeoutSecs))[3];
      (forall c | c in seconds :: IsDigit(c)) && DecimalValue(seconds) == timeoutSecs
  {
    DecimalRoundTrip(timeoutSecs);
    var fixed := FixedWords(verb, timeoutSecs);
    assert CurlWords(url, verb, headers, body, timeoutSecs)[3] == fixed[3];
  }

  lemma CurlWordsPrintable(url: string, verb: string, headers: seq<(string, string)>, body: Option<string>,
      timeoutSecs: nat)
    requires verb in ALLOWED_METHODS
    ensures AllPrintable(CurlWords(url, verb, headers, body, timeoutSecs))
    ensures AllNulFree(CurlWords(url, verb, headers, body, timeoutSecs))
       <==> NulFree(url) && HeadersNulFree(headers) && (body.Some? ==> NulFree(body.value))
  {
    FixedPrintable(verb, timeoutSecs);
    HeadersPrintable(headers);
    DataPrintable(body);
    CurlParts(FixedWords(verb, timeoutSecs), HeaderWords(headers), DataWords(body), url);
  }

  lemma DataPrintable(body: Option<string>)
    ensures AllPrintable(DataWords(body))
    ensures AllNulFree(DataWords(body)) <==> (body.Some? ==> NulFree(body.value))
  {
    if body.Some? {
      DataFlagPlain();
      OptionPrintable("--data-raw", body.value);
    }
  }

  lemma CurlParts(fixed: seq<Word>, middle: seq<Word>, data: seq<Word>, url: string)
    requires AllPrintable(fixed) && AllPrintable(middle) && AllPrintable(data) && AllNulFree(fixed)
    ensures AllPrintable(fixed + middle + data + [Quoted(url)])
    ensures AllNulFree(fixed + middle + data + [Quoted(url)])
       <==> AllNulFree(middle) && AllNulFree(data) && NulFree(url)
  {
    AllConcat(fixed, middle);
    AllConcat(fixed + middle, data);
    AllConcat(fixed + middle + data, [Quoted(url)]);
  }

  /** A plain option followed by the quoted value it takes. */
  lemma OptionPrintable(flag: string, value: string)
    requires IsPlain(flag)
    ensures AllPrintable([Plain(flag), Quoted(value)])
    ensures AllNulFree([Plain(flag), Quoted(value)]) <==> NulFree(value)
  {
    PlainNulFree(flag);
    var last := [Quoted(value)];
    assert [Plain(flag), Quoted(value)][1..] == last;
    assert last[1..] == [] && (AllNulFree(last) <==> NulFree(value));
  }

  ghost predicate AllClean(url: string, headers: seq<(string, string)>, body: Option<string>) {
    NulFree(url) && HeadersNulFree(headers) && (body.Some? ==> NulFree(body.value))
  }

  ghost predicate HeadersNulFree(headers: seq<(string, string)>) {
    forall h | h in headers :: NulFree(h.0) && NulFree(h.1)
  }

  lemma LastHeader(headers: seq<(string, string)>)
    requires headers != []
    ensures var last := headers[|headers| - 1];
      HeadersNulFree(headers) <==> HeadersNulFree(headers[..|headers| - 1]) && NulFree(last.0) && NulFree(last.1)
  {
    var last, others := headers[|headers| - 1], headers[..|headers| - 1];
    assert headers == others + [last];
    assert last in headers && forall h | h in others :: h in headers;
  }

  lemma {:induction false} HeadersPrintable(headers: seq<(string, string)>)
    ensures AllPrintable(HeaderWords(headers))
    ensures AllNulFree(HeaderWords(headers)) <==> HeadersNulFree(headers)
  {
    if headers == [] {
    } else {
      var last, others := headers[|headers| - 1], headers[..|headers| - 1];
      HeadersPrintable(others);
      LastHeader(headers);
      LineNulFree(last.0, last.1);
      HeaderPrintable(last.0 + ": " + last.1);
      AllConcat(HeaderWords(others), [Plain("-H"), Quoted(last.0 + ": " + last.1)]);
    }
  }

  lemma HeaderPrintable(line: string)
    ensures AllPrintable([Plain("-H"), Quoted(line)])
    ensures AllNulFree([Plain("-H"), Quoted(line)]) <==> NulFree(line)
  {
    ShortFlagsPlain();
    OptionPrintable("-H", line);
  }

  lemma LineNulFree(key: string, value: string)
    ensures NulFree(key + ": " + value) <==> NulFree(key) && NulFree(value)
  {
    var text := key + ": " + value;
    assert forall i | 0 <= i < |key| :: text[i] == key[i];
    assert text[|key|] == ':' && text[|key| + 1] == ' ';
    assert forall i | 0 <= i < |value| :: text[|key| + 2 + i] == value[i];
  }

  lemma FixedPrintable(verb: string, timeoutSecs: nat)
    requires verb in ALLOWED_METHODS
    ensures AllPrintable(FixedWords(verb, timeoutSecs)) && AllNulFree(FixedWords(verb, timeoutSecs))
  {
    VerbPlain(verb);
    DigitsPlain(Decimal(timeoutSecs));
    ShortFlagsPlain();
    TimeFlagPlain();
    SixPlain("curl", "-si", "--max-time", Decimal(timeoutSecs), "-X", verb);
    PlainsPrintable(["curl", "-si", "--max-time", Decimal(timeoutSecs), "-X", verb]);
  }

  predicate IsPlain(text: string) {
    text != [] && PlainText(text)
  }

  lemma ShortFlagsPlain()
    ensures IsPlain("curl") && IsPlain("-si") && IsPlain("-X") && IsPlain("-H")
  {
  }

  lemma TimeFlagPlain()
    ensures IsPlain("--max-time")
  {
  }

  lemma DataFlagPlain()
    ensures IsPlain("--data-raw")
  {
  }

  lemma SixPlain(a: string, b: string, c: string, d: string, e: string, f: string)
    requires IsPlain(a) && IsPlain(b) && IsPlain(c) && IsPlain(d) && IsPlain(e) && IsPlain(f)
    ensures AllPlain([a, b, c, d, e, f])
  {
    var none: seq<string> := [];
    assert [f] == [f] + none && AllPlain([f] + none);
    assert [e, f] == [e] + [f] && AllPlain([e] + [f]);
    assert [d, e, f] == [d] + [e, f] && AllPlain([d] + [e, f]);
    assert [c, d, e, f] == [c] + [d, e, f] && AllPlain([c] + [d, e, f]);
    assert [b, c, d, e, f] == [b] + [c, d, e, f] && AllPlain([b] + [c, d, e, f]);
    assert [a, b, c, d, e, f] == [a] + [b, c, d, e, f] && AllPlain([a] + [b, c, d, e, f]);
  }

  lemma {:induction false} PlainsPrintable(texts: seq<string>)
    requires AllPlain(texts)
    ensures AllPrintable(Plains(texts)) && AllNulFree(Plains(texts))
  {
    if texts == [] {
    } else {
      PlainNulFree(texts[0]);
      PlainsPrintable(texts[1..]);
      assert Plains(texts)[1..] == Plains(texts[1..]);
    }
  }

  lemma {:induction false} DigitsPlain(digits: string)
    requires forall c | c in digits :: IsDigit(c)
    ensures PlainText(digits)
  {
    if digits == [] {
    } else {
      assert IsDigit(digits[0]);
      DigitsPlain(digits[1..]);
    }
  }

  ghost predicate AllPlain(texts: seq<string>) {
    texts == [] || (IsPlain(texts[0]) && AllPlain(texts[1..]))
  }

  lemma {:induction false} AllPlainMember(texts: seq<string>, text: string)
    requires AllPlain(texts) && text in texts
    ensures text != [] && PlainText(text)
  {
    if text != texts[0] {
      AllPlainMember(texts[1..], text);
    }
  }

  lemma VerbPlain(verb: string)
    requires verb in ALLOWED_METHODS
    ensures PlainText(verb) && verb != []
  {
    VerbsPlain();
    AllPlainMember(ALLOWED_METHODS, verb);
  }

  lemma VerbsPlain()
    ensures AllPlain(ALLOWED_METHODS)
  {
  }
}
