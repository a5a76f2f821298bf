/**
 `escape_unit_argument` against the reader of unit files: sections "COMMAND LINES" of
 systemd.service(5) and "SPECIFIERS" of systemd.unit(5).
 */
module UnitArgument {
  import opened Wrappers

  // ----- the printer -----

  /** `str.replace` with a one-character pattern. */
  function Replace(s: string, c: char, text: string): string {
    if s == "" then "" else (if s[0] == c then text else [s[0]]) + Replace(s[1..], c, text)
  }

  /**
   What is taken for granted of `str.isprintable`, which decides by Unicode's tables: of ASCII exactly the space
   and the visible characters are printable, and no other control character or no-break space is.
   */
  ghost predicate IsPrintability(printable: char -> bool) {
    forall c :: (' ' <= c <= '~' ==> printable(c)) && (c < ' ' || '\U{7F}' <= c <= '\U{A0}' ==> !printable(c))
  }

  function Escape(s: string): string {
    Replace(Replace(Replace(s, '\\', "\\\\"), '"', "\\\""), '%', "%%")
  }

  /** `None` is the ValueError. */
  function EscapeUnitArgument(argument: string, printable: char -> bool): Option<string> {
    if argument == "" || exists c <- argument :: !printable(c) then None
    else Some("\"" + Escape(argument) + "\"")
  }

  /** Every argument that is not empty is accepted if all of it can be printed, such as a path with spaces. */
  lemma AcceptedIff(argument: string, printable: char -> bool)
    requires IsPrintability(printable)
    ensures EscapeUnitArgument(argument, printable).Some? <==> argument != "" && forall c <- argument :: printable(c)
    ensures argument != "" && (forall c <- argument :: ' ' <= c <= '~') ==>
              EscapeUnitArgument(argument, printable).Some?
    ensures (exists c <- argument :: c < ' ' || '\U{7F}' <= c <= '\U{A0}') ==>
              EscapeUnitArgument(argument, printable).None?
  {
    if c :| c in argument && (c < ' ' || '\U{7F}' <= c <= '\U{A0}') {
      assert !printable(c);
    }
  }

  // ----- the reader -----

  datatype Reading = Word(word: string, rest: string) | Malformed

  predicate IsSeparator(c: char) {
    c == ' ' || c == '\t' || c == '\n' || c == '\r'
  }

  function SkipSeparators(s: string): string {
    if s != "" && IsSeparator(s[0]) then SkipSeparators(s[1..]) else s
  }

  /** The C-style escapes of one character; numeric ones are not modelled. */
  function Unescape(c: char): Option<char> {
    match c
    case 'a' => Some('\U{07}')
    case 'b' => Some('\U{08}')
    case 'f' => Some('\U{0C}')
    case 'n' => Some('\n')
    case 'r' => Some('\r')
    case 't' => Some('\t')
    case 'v' => Some('\U{0B}')
    case '\\' => Some('\\')
    case '"' => Some('"')
    case '\'' => Some('\'')
    case 's' => Some(' ')
    case _ => None
  }

  /** Reads on in a word whose beginning is `word`, inside the quotes `quote` if there are any. */
  function ReadWord(text: string, quote: Option<char>, word: string): Reading
    decreases |text|
  {
    if text == "" then (if quote.None? then Word(word, "") else Malformed)
    else if text[0] == '\\' then
      if |text| == 1 || Unescape(text[1]).None? then Malformed
      else ReadWord(text[2..], quote, word + [Unescape(text[1]).value])
    else if quote.Some? then
      if text[0] == quote.value then ReadWord(text[1..], None, word)
      else ReadWord(text[1..], quote, word + [text[0]])
    else if text[0] == '"' || text[0] == '\'' then ReadWord(text[1..], Some(text[0]), word)
    else if IsSeparator(text[0]) then Word(word, SkipSeparators(text))
    else ReadWord(text[1..], None, word + [text[0]])
  }

  /** `%%` stands for one percent sign; every other specifier would be replaced by something else. */
  function Collapse(word: string): Option<string> {
    if word == "" then Some("")
    else if word[0] != '%' then
      var rest := Collapse(word[1..]);
      if rest.None? then None else Some([word[0]] + rest.value)
    else if |word| == 1 || word[1] != '%' then None
    else
      var rest := Collapse(word[2..]);
      if rest.None? then None else Some(['%'] + rest.value)
  }

  /** The words of a command line after unquoting and specifier expansion. */
  function ReadCommand(text: string): Option<seq<string>>
    decreases |text|
  {
    var start := SkipSeparators(text);
    SkipShortens(text);
    if start == "" then Some([])
    else
      var first := ReadWord(start, None, "");
      if first.Malformed? || |first.rest| >= |text| then None
      else
        var word, others := Collapse(first.word), ReadCommand(first.rest);
        if word.None? || others.None? then None else Some([word.value] + others.value)
  }

  lemma SkipShortens(s: string)
    ensures |SkipSeparators(s)| <= |s|
  {
  }

  // ----- one character at a time -----

  function EncodeChar(c: char): string {
    if c == '\\' then "\\\\" else if c == '"' then "\\\"" else if c == '%' then "%%" else [c]
  }

  function Encode(s: string): string {
    if s == "" then "" else EncodeChar(s[0]) + Encode(s[1..])
  }

  lemma {:induction false} ReplaceAppend(a: string, b: string, c: char, text: string)
    ensures Replace(a + b, c, text) == Replace(a, c, text) + Replace(b, c, text)
  {
    if a == "" {
      assert a + b == b;
    } else {
      ReplaceAppend(a[1..], b, c, text);
      assert (a + b)[0] == a[0] && (a + b)[1..] == a[1..] + b;
      var first := if a[0] == c then text else [a[0]];
      assert first + (Replace(a[1..], c, text) + Replace(b, c, text)) ==
             first + Replace(a[1..], c, text) + Replace(b, c, text);
    }
  }

  lemma ReplaceOne(d: char, c: char, text: string)
    ensures Replace([d], c, text) == if d == c then text else [d]
  {
    assert [d][1..] == "";
    assert text + "" == text && [d] + "" == [d];
  }

  lemma EscapeChar(c: char)
    ensures Escape([c]) == EncodeChar(c)
  {
    ReplaceOne(c, '\\', "\\\\");
    ReplaceOne(c, '"', "\\\"");
    ReplaceOne(c, '%', "%%");
    ReplaceOne('\\', '"', "\\\"");
    ReplaceOne('\\', '%', "%%");
    ReplaceOne('"', '%', "%%");
    ReplaceAppend("\\", "\\", '"', "\\\"");
    ReplaceAppend("\\", "\\", '%', "%%");
    ReplaceAppend("\\", "\"", '%', "%%");
    assert "\\\\" == "\\" + "\\" && "\\\"" == "\\" + "\"";
  }

  /** The three successive replacements of the whole string encode each character on its own. */
  lemma {:induction false} EscapeIsPerCharacter(s: string)
    ensures Escape(s) == Encode(s)
  {
    if s != "" {
      var head, tail := [s[0]], s[1..];
      assert s == head + tail;
      ReplaceAppend(head, tail, '\\', "\\\\");
      ReplaceAppend(Replace(head, '\\', "\\\\"), Replace(tail, '\\', "\\\\"), '"', "\\\"");
      ReplaceAppend(Replace(Replace(head, '\\', "\\\\"), '"', "\\\""),
                    Replace(Replace(tail, '\\', "\\\\"), '"', "\\\""), '%', "%%");
      EscapeChar(s[0]);
      EscapeIsPerCharacter(tail);
    }
  }

  // ----- reading back -----

  function DoubledChar(c: char): string {
    if c == '%' then "%%" else [c]
  }

  /** What is left of an encoded string after unquoting and unescaping. */
  function Doubled(s: string): string {
    if s == "" then "" else DoubledChar(s[0]) + Doubled(s[1..])
  }

  lemma {:induction false} CollapseDoubled(s: string)
    ensures Collapse(Doubled(s)) == Some(s)
  {
    if s != "" {
      CollapseDoubled(s[1..]);
      var d := Doubled(s);
      if s[0] == '%' {
        assert d[0] == '%' && d[1] == '%' && d[2..] == Doubled(s[1..]);
        assert ['%'] + s[1..] == s;
      } else {
        assert d[0] == s[0] && d[1..] == Doubled(s[1..]);
        assert [s[0]] + s[1..] == s;
      }
    }
  }

  lemma ReadEncodedChar(c: char, rest: string, word: string)
    ensures ReadWord(EncodeChar(c) + rest, Some('"'), word) == ReadWord(rest, Some('"'), word + DoubledChar(c))
  {
    var text := EncodeChar(c) + rest;
    if c == '\\' || c == '"' {
      assert text[0] == '\\' && text[1] == c && text[2..] == rest;
    } else if c == '%' {
      assert text[0] == '%' && text[1..][0] == '%' && text[1..][1..] == rest;
      assert word + ['%'] + ['%'] == word + "%%";
    } else {
      assert text[0] == c && text[1..] == rest;
    }
  }

  lemma ReadClosingQuote(after: string, word: string)
    ensures ReadWord("\"" + after, Some('"'), word) == ReadWord(after, None, word)
  {
    assert ("\"" + after)[1..] == after;
  }

  lemma {:induction false} ReadEncoded(s: string, after: string, word: string)
    ensures ReadWord(Encode(s) + "\"" + after, Some('"'), word) == ReadWord(after, None, word + Doubled(s))
  {
    var text := Encode(s) + "\"" + after;
    if s == "" {
      assert text == "\"" + after && word + Doubled(s) == word;
      ReadClosingQuote(after, word);
    } else {
      var next := Encode(s[1..]) + "\"" + after;
      ReadEncodedChar(s[0], next, word);
      ReadEncoded(s[1..], after, word + DoubledChar(s[0]));
      assert word + Doubled(s) == word + DoubledChar(s[0]) + Doubled(s[1..]);
      assert text == EncodeChar(s[0]) + Encode(s[1..]) + "\"" + after == EncodeChar(s[0]) + next;
    }
  }

  lemma WordEnds(after: string, word: string)
    requires after == "" || IsSeparator(after[0])
    ensures ReadWord(after, None, word) == Word(word, SkipSeparators(after))
  {
  }

  /** The escaped argument is one word, whatever follows it after a space, and that word is the argument. */
  lemma ArgumentReadsBack(argument: string, printable: char -> bool, after: string)
    requires EscapeUnitArgument(argument, printable).Some?
    requires after == "" || IsSeparator(after[0])
    ensures var first := ReadWord(EscapeUnitArgument(argument, printable).value + after, None, "");
            first.Word? && Collapse(first.word) == Some(argument) && first.rest == SkipSeparators(after)
  {
    EscapeIsPerCharacter(argument);
    var text := EscapeUnitArgument(argument, printable).value + after;
    assert text[0] == '"' && text[1..] == Encode(argument) + "\"" + after;
    ReadEncoded(argument, after, "");
    assert "" + Doubled(argument) == Doubled(argument);
    WordEnds(after, Doubled(argument));
    CollapseDoubled(argument);
  }

  /** A character without a meaning of its own in a command line; `$` starts a variable, `;` may separate lines. */
  predicate Ordinary(c: char) {
    !IsSeparator(c) && c != '\\' && c != '"' && c != '\'' && c != '%' && c != '$' && c != ';'
  }

  /** A word without anything special in it, such as `up`, `--exit-idle-time=5min` and `127.0.0.1:18000`. */
  predicate Plain(word: string) {
    word != "" && forall c <- word :: Ordinary(c)
  }

  lemma ReadPlainChar(c: char, rest: string, word: string)
    requires !IsSeparator(c) && c != '\\' && c != '"' && c != '\''
    ensures ReadWord([c] + rest, None, word) == ReadWord(rest, None, word + [c])
  {
    assert ([c] + rest)[1..] == rest;
  }

  lemma {:induction false} PlainReadsBack(s: string, word: string, after: string)
    requires s == "" || Plain(s)
    requires after == "" || IsSeparator(after[0])
    ensures ReadWord(s + after, None, word) == Word(word + s, SkipSeparators(after))
    ensures Collapse(s) == Some(s)
  {
    if s == "" {
      assert word + s == word && s + after == after;
      WordEnds(after, word);
    } else {
      assert s[0] in s && forall c <- s[1..] :: c in s;
      assert [s[0]] + s[1..] == s && s + after == [s[0]] + (s[1..] + after);
      ReadPlainChar(s[0], s[1..] + after, word);
      PlainReadsBack(s[1..], word + [s[0]], after);
      assert word + [s[0]] + s[1..] == word + s;
    }
  }

  /** The arguments of a command line as the unit templates write them, each after one space. */
  function Arguments(words: seq<string>): string {
    if words == [] then "" else " " + words[0] + Arguments(words[1..])
  }

  lemma ReadOneWord(text: string, word: string, meaning: string, rest: string, others: seq<string>)
    requires text != "" && !IsSeparator(text[0])
    requires ReadWord(text, None, "") == Word(word, rest) && |rest| < |text|
    requires Collapse(word) == Some(meaning) && ReadCommand(rest) == Some(others)
    ensures ReadCommand(text) == Some([meaning] + others)
  {
    assert SkipSeparators(text) == text;
  }

  lemma PlainWordReads(first: string, after: string, others: seq<string>)
    requires Plain(first) && (after == "" || IsSeparator(after[0]))
    requires ReadCommand(SkipSeparators(after)) == Some(others)
    ensures ReadCommand(first + after) == Some([first] + others)
  {
    SkipShortens(after);
    assert first[0] in first && (first + after)[0] == first[0];
    PlainReadsBack(first, "", after);
    assert "" + first == first;
    ReadOneWord(first + after, first, first, SkipSeparators(after), others);
  }

  lemma ArgumentsStart(words: seq<string>)
    requires words != [] && Plain(words[0])
    ensures SkipSeparators(Arguments(words)) == words[0] + Arguments(words[1..])
  {
    var text, first := words[0] + Arguments(words[1..]), words[0];
    assert first[0] in first && text[0] == first[0];
    assert Arguments(words)[0] == ' ' && Arguments(words)[1..] == text;
  }

  lemma {:induction false} ArgumentsReadBack(words: seq<string>)
    requires forall w <- words :: Plain(w)
    ensures ReadCommand(SkipSeparators(Arguments(words))) == Some(words)
  {
    if words == [] {
      assert ReadCommand("") == Some([]);
    } else {
      var first, after := words[0], Arguments(words[1..]);
      assert first in words;
      ArgumentsReadBack(words[1..]);
      PlainWordReads(first, after, words[1..]);
      ArgumentsStart(words);
      assert [words[0]] + words[1..] == words;
    }
  }

  /** The command lines of the rendered units name the executable and its arguments, exactly. */
  lemma CommandReadsBack(executable: string, printable: char -> bool, words: seq<string>)
    requires EscapeUnitArgument(executable, printable).Some? && forall w <- words :: Plain(w)
    ensures ReadCommand(EscapeUnitArgument(executable, printable).value + Arguments(words)) ==
            Some([executable] + words)
  {
    var text := EscapeUnitArgument(executable, printable).value + Arguments(words);
    ArgumentReadsBack(executable, printable, Arguments(words));
    ArgumentsReadBack(words);
    SkipShortens(Arguments(words));
    var first := ReadWord(text, None, "");
    ReadOneWord(text, first.word, executable, first.rest, words);
  }
}
