/**
 The `NAME="value"` files: the printer `write_shell_assignment` and the parser `_read_env`.

 `read_text` turns a carriage return, alone or before a line feed, into a line feed; `splitlines`
 breaks a line at all three in the same places, so the text is read here as it is in the file.
 */
module EnvFile {
  import opened Text

  // ----- lines -----

  /** The number of characters before the first line break. */
  function LineLength(s: string): (n: nat)
    ensures n <= |s|
    ensures forall i :: 0 <= i < n ==> !IsLineBreak(s[i])
    ensures n < |s| ==> IsLineBreak(s[n])
  {
    if s == "" || IsLineBreak(s[0]) then 0 else 1 + LineLength(s[1..])
  }

  /** `str.splitlines`: a carriage return and line feed are one break, and no empty line ends the list. */
  function SplitLines(s: string): seq<string>
    decreases |s|
  {
    if s == "" then []
    else
      var n := LineLength(s);
      if n == |s| then [s]
      else if s[n] == '\r' && n + 1 < |s| && s[n + 1] == '\n' then [s[..n]] + SplitLines(s[n + 2..])
      else [s[..n]] + SplitLines(s[n + 1..])
  }

  predicate OneLine(s: string) {
    forall c <- s :: !IsLineBreak(c)
  }

  // ----- one line -----

  datatype Line = Skipped | NotAnAssignment | BadName | Assignment(key: string, value: string)

  predicate IsUpper(c: char) {
    'A' <= c <= 'Z'
  }

  /** `re.fullmatch(r'[A-Z][A-Z0-9_]*', name)`. */
  predicate ValidName(name: string) {
    && name != ""
    && IsUpper(name[0])
    && forall c <- name :: IsUpper(c) || '0' <= c <= '9' || c == '_'
  }

  function Unquote(value: string): string {
    if |value| >= 2 && value[0] == value[|value| - 1] && (value[0] == '\'' || value[0] == '"')
    then value[1..|value| - 1] else value
  }

  function ParseLine(line: string): Line {
    var stripped := Strip(line);
    if stripped == "" || stripped[0] == '#' then Skipped
    else
      var n := IndexOf(stripped, '=');
      if n == |stripped| then NotAnAssignment
      else
        var key := Strip(stripped[..n]);
        if !ValidName(key) then BadName else Assignment(key, Unquote(Strip(stripped[n + 1..])))
  }

  // ----- what the parser makes of every line, by its characters -----

  /** A name as the settings have it: capital letters, digits and underscores, a letter first. */
  predicate IsSettingName(name: string) {
    name != "" && 'A' <= name[0] <= 'Z'
    && forall c <- name :: 'A' <= c <= 'Z' || '0' <= c <= '9' || c == '_'
  }

  /** `inside` is what `value` quotes, with quotes of either kind, or `value` itself if it is not quoted. */
  predicate Unquotes(value: string, inside: string) {
    || value == "\"" + inside + "\""
    || value == "'" + inside + "'"
    || (inside == value && !(|value| >= 2 && value[0] == value[|value| - 1] && (value[0] == '"' || value[0] == '\'')))
  }

  /** The first character that is no white space is a number sign. */
  predicate IsComment(line: string) {
    exists i :: 0 <= i < |line| && line[i] == '#' && Blank(line[..i])
  }

  lemma UnquoteUnquotes(value: string, inside: string)
    ensures Unquotes(value, inside) <==> inside == Unquote(value)
  {
    var n := |value| - 1;
    if |value| >= 2 {
      assert value == [value[0]] + value[1..n] + [value[n]];
    }
    if value == "\"" + inside + "\"" || value == "'" + inside + "'" {
      assert value[1..n] == inside;
    }
  }

  lemma FirstIndex(s: string, c: char, n: nat)
    requires n < |s| && s[n] == c && c !in s[..n]
    ensures IndexOf(s, c) == n
  {
    assert forall i :: 0 <= i < n ==> s[i] == s[..n][i] && s[i] in s[..n];
    assert IndexOf(s, c) >= n;
  }

  /**
   White space around the name, the equals sign and the value does not matter; quotes of either kind around
   the value are taken away, once and only as a pair; everything else in the value stays.
   */
  lemma AssignmentLine(pre: string, key: string, a: string, b: string, value: string, post: string, inside: string)
    requires Blank(pre) && Blank(a) && Blank(b) && Blank(post) && Tight(value)
    requires IsSettingName(key) && Unquotes(value, inside)
    ensures ParseLine(pre + key + a + "=" + b + value + post) == Assignment(key, inside)
  {
    UnquoteUnquotes(value, inside);
    StripTakesOuterSpace(b, value, "");
    if value == "" {
      assert Blank(b + post) by {
        assert forall c <- b + post :: c in b || c in post;
      }
      TightLine(pre, key, a, "", b + post);
      StripOfBlank("");
      Regroup(pre, key, a, b, "", post);
    } else {
      TightLine(pre, key, a, b + value, post);
      assert b + value + "" == b + value;
      Regroup(pre, key, a, b, value, post);
    }
  }

  lemma Regroup(pre: string, key: string, a: string, b: string, value: string, post: string)
    ensures pre + key + a + "=" + b + value + post == pre + (key + a + "=" + (b + value)) + post
    ensures pre + key + a + "=" + b + "" + post == pre + (key + a + "=" + "") + (b + post)
  {
    var x, y := pre + key + a + "=", key + a + "=";
    assert pre + key + a == pre + (key + a);
    assert x == pre + y;
    assert x + b + value == x + (b + value);
    assert pre + y + (b + value) == pre + (y + (b + value));
    assert x + b + "" + post == x + (b + post) && y + "" == y;
  }

  lemma SpacedName(key: string, a: string)
    requires IsSettingName(key) && Blank(a)
    ensures Strip(key + a) == key && '=' !in key + a
  {
    assert key[|key| - 1] in key && key[0] in key;
    StripTakesOuterSpace("", key, a);
    assert "" + key + a == key + a;
    assert forall c <- key + a :: c in key || c in a;
  }

  lemma CoreParses(line: string, before: string, rest: string)
    requires Strip(line) == before + "=" + rest
    requires before != "" && before[0] != '#' && '=' !in before && ValidName(Strip(before))
    ensures ParseLine(line) == Assignment(Strip(before), Unquote(Strip(rest)))
  {
    var core, n := before + "=" + rest, |before|;
    assert core[..n] == before && core[n] == '=' && core[n + 1..] == rest && core[0] == before[0];
    FirstIndex(core, '=', n);
  }

  lemma CoreIsTight(before: string, rest: string)
    requires before != "" && !IsSpace(before[0])
    requires rest != "" ==> !IsSpace(rest[|rest| - 1])
    ensures Tight(before + "=" + rest)
  {
    var core := before + "=" + rest;
    assert core[|core| - 1] == if rest == "" then '=' else rest[|rest| - 1];
  }

  /** `rest` is all the text after the equals sign that is no outer white space. */
  lemma TightLine(pre: string, key: string, a: string, rest: string, post: string)
    requires Blank(pre) && Blank(a) && Blank(post) && IsSettingName(key)
    requires rest != "" ==> !IsSpace(rest[|rest| - 1])
    ensures ParseLine(pre + (key + a + "=" + rest) + post) == Assignment(key, Unquote(Strip(rest)))
  {
    var before := key + a;
    SpacedName(key, a);
    assert before[0] == key[0];
    CoreIsTight(before, rest);
    StripTakesOuterSpace(pre, before + "=" + rest, post);
    CoreParses(pre + (before + "=" + rest) + post, before, rest);
  }

  /** Blank lines and comments, and no others, are skipped. */
  lemma SkippedIff(line: string)
    ensures ParseLine(line).Skipped? <==> Blank(line) || IsComment(line)
  {
    StripOfBlank(line);
    var pre, post := StripSplits(line);
    var core := Strip(line);
    if core != "" {
      var n := |pre|;
      assert line[n] == core[0] && line[..n] == pre;
      assert forall j :: 0 <= j < n ==> line[j] == pre[j] && pre[j] in pre;
      if IsComment(line) {
        var i :| 0 <= i < |line| && line[i] == '#' && Blank(line[..i]);
        assert forall j :: 0 <= j < i ==> line[j] == line[..i][j] && line[j] in line[..i];
        assert i == n;
      }
    }
  }

  /** The lines that are complained about for want of an assignment. */
  lemma NotAnAssignmentIff(line: string)
    ensures ParseLine(line).NotAnAssignment? <==> !Blank(line) && !IsComment(line) && '=' !in line
  {
    SkippedIff(line);
    var pre, post := StripSplits(line);
    var core := Strip(line);
    assert '=' in line <==> '=' in core by {
      assert forall c <- line :: c in pre || c in core || c in post;
      assert forall c <- core :: c in line;
    }
    var n := IndexOf(core, '=');
    if n < |core| {
      assert core[n] in core;
    }
  }

  /** The line is a setting name in white space, an equals sign, and anything. */
  predicate NamesSetting(line: string, pre: string, key: string, a: string, rest: string) {
    line == pre + key + a + "=" + rest && Blank(pre) && Blank(a) && IsSettingName(key)
  }

  /** Such a line assigns to that name. */
  lemma NamedLineAssigns(line: string, pre: string, key: string, a: string, rest: string)
    requires NamesSetting(line, pre, key, a, rest)
    ensures ParseLine(line).Assignment? && ParseLine(line).key == key
  {
    var b, post := StripSplits(rest);
    var value := Strip(rest);
    assert line == pre + key + a + "=" + b + value + post;
    UnquoteUnquotes(value, Unquote(value));
    AssignmentLine(pre, key, a, b, value, post, Unquote(value));
  }

  /** Of the other lines with an equals sign, that are no comments, the name is complained about. */
  lemma BadNameIff(line: string)
    ensures ParseLine(line).BadName? <==>
            && !IsComment(line) && '=' in line
            && forall pre, key, a, rest :: !NamesSetting(line, pre, key, a, rest)
  {
    SkippedIff(line);
    NotAnAssignmentIff(line);
    if '=' in line {
      assert !Blank(line);
    }
    forall pre, key, a, rest | NamesSetting(line, pre, key, a, rest)
      ensures ParseLine(line).Assignment?
    {
      NamedLineAssigns(line, pre, key, a, rest);
    }
    if ParseLine(line).Assignment? {
      var pre, key, a, rest := AssigningLineNames(line);
    }
  }

  lemma AssigningLineNames(line: string) returns (pre: string, key: string, a: string, rest: string)
    requires ParseLine(line).Assignment?
    ensures NamesSetting(line, pre, key, a, rest)
  {
    var outer, post := StripSplits(line);
    var core := Strip(line);
    var n := IndexOf(core, '=');
    var inner;
    inner, a := StripSplits(core[..n]);
    key, rest := Strip(core[..n]), core[n + 1..] + post;
    pre := outer + inner;
    assert core == core[..n] + "=" + core[n + 1..];
    NameRegroups(outer, inner, key, a, core[n + 1..], post);
    assert forall c <- pre :: c in outer || c in inner;
  }

  lemma NameRegroups(outer: string, inner: string, key: string, a: string, rest: string, post: string)
    ensures outer + (inner + key + a + "=" + rest) + post == outer + inner + key + a + "=" + (rest + post)
  {
    var x := inner + key + a + "=";
    assert outer + (x + rest) + post == (outer + x) + (rest + post);
    assert outer + (inner + key + a) == outer + inner + key + a;
    assert outer + x == outer + inner + key + a + "=";
  }

  // ----- and of every text, by its line breaks -----

  /** One line break: a carriage return with its line feed, or any other single one. */
  predicate IsBreak(b: string, rest: string) {
    b == "\r\n" || (|b| == 1 && IsLineBreak(b[0]) && !(b == "\r" && rest != "" && rest[0] == '\n'))
  }

  lemma {:induction false} LineEndsAt(line: string, b: string, rest: string)
    requires OneLine(line) && b != "" && IsLineBreak(b[0])
    ensures LineLength(line + b + rest) == |line|
  {
    var text := line + b + rest;
    if line == "" {
      assert text[0] == b[0];
    } else {
      assert line[0] in line && text[0] == line[0];
      assert text[1..] == line[1..] + b + rest && forall c <- line[1..] :: c in line;
      LineEndsAt(line[1..], b, rest);
    }
  }

  /** Each break ends a line; the text after the last one is a line of its own if there is any. */
  lemma LinesOfText(line: string, b: string, rest: string)
    requires OneLine(line)
    ensures SplitLines("") == []
    ensures line != "" ==> SplitLines(line) == [line]
    ensures IsBreak(b, rest) ==> SplitLines(line + b + rest) == [line] + SplitLines(rest)
  {
    assert forall i :: 0 <= i < |line| ==> line[i] in line;
    if IsBreak(b, rest) {
      var text := line + b + rest;
      LineEndsAt(line, b, rest);
      assert text[..|line|] == line && text[|line|] == b[0];
      assert text[|line| + |b|..] == rest;
      if |b| == 1 && |line| + 1 < |text| {
        assert text[|line| + 1] == rest[0];
      }
    }
  }

  // ----- a file -----

  datatype Message = CannotRead | ExpectedAssignment(number: nat) | InvalidName(number: nat)

  /** The settings a list of lines stands for: of several assignments to a name the last one counts. */
  function Values(lines: seq<string>): map<string, string> {
    if lines == [] then map[]
    else
      var before := Values(lines[..|lines| - 1]);
      match ParseLine(lines[|lines| - 1])
      case Assignment(key, value) => before[key := value]
      case _ => before
  }

  /** The complaints about a list of lines, numbered from one. */
  function Messages(lines: seq<string>): seq<Message> {
    if lines == [] then []
    else
      var before := Messages(lines[..|lines| - 1]);
      match ParseLine(lines[|lines| - 1])
      case NotAnAssignment => before + [ExpectedAssignment(|lines|)]
      case BadName => before + [InvalidName(|lines|)]
      case _ => before
  }

  predicate Assigns(line: string, key: string) {
    ParseLine(line).Assignment? && ParseLine(line).key == key
  }

  /** Line `i` is the last one that assigns to `key`. */
  predicate LastAssignment(lines: seq<string>, key: string, i: nat) {
    i < |lines| && Assigns(lines[i], key) && forall j :: i < j < |lines| ==> !Assigns(lines[j], key)
  }

  /** A name has the value of its last assignment. */
  lemma {:induction false} ValueOfLastAssignment(lines: seq<string>, key: string, i: nat)
    requires LastAssignment(lines, key, i)
    ensures key in Values(lines) && Values(lines)[key] == ParseLine(lines[i]).value
  {
    var n := |lines| - 1;
    if i < n {
      assert !Assigns(lines[n], key);
      ValueOfLastAssignment(lines[..n], key, i);
    }
  }

  /** A name without an assignment has no value. */
  lemma {:induction false} UnassignedName(lines: seq<string>, key: string)
    requires forall i :: 0 <= i < |lines| ==> !Assigns(lines[i], key)
    ensures key !in Values(lines)
  {
    if lines != [] {
      var n := |lines| - 1;
      UnassignedName(lines[..n], key);
      assert !Assigns(lines[n], key);
    }
  }

  /** Exactly the lines that are neither skipped nor assignments are complained about, under their own numbers. */
  lemma {:induction false} ComplaintsAreExact(lines: seq<string>, number: nat)
    ensures ExpectedAssignment(number) in Messages(lines)
       <==> 1 <= number <= |lines| && ParseLine(lines[number - 1]).NotAnAssignment?
    ensures InvalidName(number) in Messages(lines)
       <==> 1 <= number <= |lines| && ParseLine(lines[number - 1]).BadName?
  {
    if lines != [] {
      ComplaintsAreExact(lines[..|lines| - 1], number);
    }
  }

  /** The text parses to `values`, without a complaint. */
  predicate Reads(text: string, values: map<string, string>) {
    Values(SplitLines(text)) == values && Messages(SplitLines(text)) == []
  }

  /** `Undecodable` is a file that is not UTF-8: the decoding error is no `OSError` and escapes. */
  datatype File = Missing | Unreadable | Undecodable | Readable(text: string)

  lemma OneMoreLine(lines: seq<string>, i: nat)
    requires i < |lines|
    ensures Values(lines[..i + 1]) ==
            var line := ParseLine(lines[i]);
            if line.Assignment? then Values(lines[..i])[line.key := line.value] else Values(lines[..i])
    ensures Messages(lines[..i + 1]) == Messages(lines[..i]) +
            match ParseLine(lines[i])
            case NotAnAssignment => [ExpectedAssignment(i + 1)]
            case BadName => [InvalidName(i + 1)]
            case _ => []
  {
    assert lines[..i + 1][..i] == lines[..i];
  }

  class Reader {
    var errors: seq<Message>

    constructor ()
      ensures errors == []
    {
      errors := [];
    }

    method ReadLine(line: string, number: nat, settings: map<string, string>) returns (result: map<string, string>)
      modifies this
      ensures var parsed := ParseLine(line);
              result == if parsed.Assignment? then settings[parsed.key := parsed.value] else settings
      ensures errors == old(errors) + match ParseLine(line)
                                      case NotAnAssignment => [ExpectedAssignment(number)]
                                      case BadName => [InvalidName(number)]
                                      case _ => []
    {
      result := settings;
      var stripped := Strip(line);
      if stripped == "" || stripped[0] == '#' {
        return;
      }
      var n := IndexOf(stripped, '=');
      if n == |stripped| {
        errors := errors + [ExpectedAssignment(number)];
        return;
      }
      var key := Strip(stripped[..n]);
      if !ValidName(key) {
        errors := errors + [InvalidName(number)];
        return;
      }
      var value := Strip(stripped[n + 1..]);
      if |value| >= 2 && value[0] == value[|value| - 1] && (value[0] == '\'' || value[0] == '"') {
        value := value[1..|value| - 1];
      }
      result := result[key := value];
    }

    method ReadEnv(file: File) returns (result: map<string, string>, escaped: bool)
      modifies this
      ensures escaped <==> file.Undecodable?
      ensures !file.Readable? ==> result == map[]
      ensures errors == old(errors) + match file
                                      case Readable(text) => Messages(SplitLines(text))
                                      case Unreadable => [CannotRead]
                                      case _ => []
      ensures file.Readable? ==> result == Values(SplitLines(file.text))
    {
      result, escaped := map[], file.Undecodable?;
      if file.Missing? || escaped {
        return;
      }
      if file.Unreadable? {
        errors := errors + [CannotRead];
        return;
      }
      var lines := SplitLines(file.text);
      for i := 0 to |lines|
        invariant result == Values(lines[..i])
        invariant errors == old(errors) + Messages(lines[..i])
      {
        OneMoreLine(lines, i);
        result := ReadLine(lines[i], i + 1, result);
      }
      assert lines[..|lines|] == lines;
    }
  }

  // ----- the printer -----

  function PrintedLine(key: string, value: string): string {
    key + "=\"" + value + "\""
  }

  function WriteShellAssignment(key: string, value: string): string {
    PrintedLine(key, value) + "\n"
  }

  function PrintAll(assignments: seq<(string, string)>): string {
    if assignments == [] then ""
    else WriteShellAssignment(assignments[0].0, assignments[0].1) + PrintAll(assignments[1..])
  }

  function LastWins(assignments: seq<(string, string)>): map<string, string> {
    if assignments == [] then map[]
    else
      var last := assignments[|assignments| - 1];
      LastWins(assignments[..|assignments| - 1])[last.0 := last.1]
  }

  predicate Printable(assignment: (string, string)) {
    ValidName(assignment.0) && OneLine(assignment.1)
  }

  // ----- round trips -----

  lemma ValidNameIsClean(name: string)
    requires ValidName(name)
    ensures Strip(name) == name && OneLine(name) && '=' !in name
  {
    assert name[|name| - 1] in name && name[0] in name;
  }

  lemma PrintedLineParses(key: string, value: string)
    requires ValidName(key)
    ensures ParseLine(PrintedLine(key, value)) == Assignment(key, value)
  {
    var line, quoted := PrintedLine(key, value), "\"" + value + "\"";
    ValidNameIsClean(key);
    assert line == key + "=" + quoted;
    CoreIsTight(key, quoted);
    assert Strip(line) == line && Strip(quoted) == quoted;
    CoreParses(line, key, quoted);
    UnquoteUnquotes(quoted, value);
  }

  function PrintedLines(assignments: seq<(string, string)>): (lines: seq<string>)
    ensures |lines| == |assignments|
    ensures forall i :: 0 <= i < |lines| ==> lines[i] == PrintedLine(assignments[i].0, assignments[i].1)
  {
    if assignments == [] then []
    else [PrintedLine(assignments[0].0, assignments[0].1)] + PrintedLines(assignments[1..])
  }

  lemma {:induction false} PrintedTextSplits(assignments: seq<(string, string)>)
    requires forall a <- assignments :: Printable(a)
    ensures SplitLines(PrintAll(assignments)) == PrintedLines(assignments)
  {
    if assignments != [] {
      var (key, value) := assignments[0];
      var line, rest := PrintedLine(key, value), PrintAll(assignments[1..]);
      assert assignments[0] in assignments;
      ValidNameIsClean(key);
      assert OneLine(line);
      LinesOfText(line, "\n", rest);
      assert PrintAll(assignments) == line + "\n" + rest;
      PrintedTextSplits(assignments[1..]);
    }
  }

  lemma {:induction false} PrintedLinesMean(lines: seq<string>, assignments: seq<(string, string)>)
    requires |lines| == |assignments|
    requires forall i :: 0 <= i < |lines| ==> lines[i] == PrintedLine(assignments[i].0, assignments[i].1)
    requires forall a <- assignments :: Printable(a)
    ensures Values(lines) == LastWins(assignments) && Messages(lines) == []
  {
    if lines != [] {
      var n := |lines| - 1;
      PrintedLinesMean(lines[..n], assignments[..n]);
      assert assignments[n] in assignments;
      PrintedLineParses(assignments[n].0, assignments[n].1);
    }
  }

  /**
   Whatever quotes, equals signs, number signs or outer spaces the values hold, a printed list of
   assignments reads back as the last value of each name.
   */
  lemma ListReadsBack(assignments: seq<(string, string)>)
    requires forall a <- assignments :: Printable(a)
    ensures Reads(PrintAll(assignments), LastWins(assignments))
  {
    PrintedTextSplits(assignments);
    PrintedLinesMean(PrintedLines(assignments), assignments);
  }

  // ----- exactly when one assignment reads back -----

  lemma {:induction false} StripKeeps(s: string)
    ensures forall c <- Strip(s) :: c in s
  {
    if s != "" && IsSpace(s[0]) {
      StripKeeps(s[1..]);
    } else if s != "" && IsSpace(s[|s| - 1]) {
      StripKeeps(s[..|s| - 1]);
    }
  }

  lemma ParsedAssignment(line: string)
    requires OneLine(line) && ParseLine(line).Assignment?
    ensures var a := ParseLine(line); ValidName(a.key) && OneLine(a.value)
  {
    var stripped := Strip(line);
    StripKeeps(line);
    var rest := stripped[IndexOf(stripped, '=') + 1..];
    StripKeeps(rest);
    forall c | c in Unquote(Strip(rest)) ensures c in line {
      assert c in Strip(rest);
      assert c in rest;
      assert c in stripped;
    }
  }

  lemma {:induction false} SplitLinesAreLines(s: string)
    ensures forall line <- SplitLines(s) :: OneLine(line)
    decreases |s|
  {
    if s != "" {
      var n := LineLength(s);
      assert OneLine(s[..n]);
      if n == |s| {
        assert s[..n] == s;
      } else if s[n] == '\r' && n + 1 < |s| && s[n + 1] == '\n' {
        SplitLinesAreLines(s[n + 2..]);
      } else {
        SplitLinesAreLines(s[n + 1..]);
      }
    }
  }

  lemma {:induction false} ValuesAreLines(lines: seq<string>)
    requires forall line <- lines :: OneLine(line)
    ensures forall key <- Values(lines) :: ValidName(key) && OneLine(Values(lines)[key])
  {
    if lines != [] {
      var n := |lines| - 1;
      ValuesAreLines(lines[..n]);
      assert lines[n] in lines;
      if ParseLine(lines[n]).Assignment? {
        ParsedAssignment(lines[n]);
      }
    }
  }

  /** One printed assignment reads back exactly when its name is a setting name and its value has no line break. */
  lemma AssignmentReadsBackIff(key: string, value: string)
    ensures Reads(WriteShellAssignment(key, value), map[key := value]) <==> ValidName(key) && OneLine(value)
  {
    var text, one := WriteShellAssignment(key, value), [(key, value)];
    assert PrintAll(one) == text;
    assert LastWins(one) == map[key := value];
    if ValidName(key) && OneLine(value) {
      ListReadsBack(one);
    }
    SplitLinesAreLines(text);
    ValuesAreLines(SplitLines(text));
    if Reads(text, map[key := value]) {
      assert key in Values(SplitLines(text));
    }
  }
}
