/** Shell-quoting the hook executable, and the tokenizer by which cleanup recognises hooks that run it. */
module Quoting {
  import opened JsonGrammar

  // ----- writing -----

  /** Every single quote, from inside single quotes: close, a quoted quote, open again. */
  const QUOTE_QUOTE := "'\"'\"'"

  function Escaped(value: string): string {
    if value == "" then ""
    else (if value[0] == '\'' then QUOTE_QUOTE else [value[0]]) + Escaped(value[1..])
  }

  function ShellQuote(value: string): string {
    "'" + Escaped(value) + "'"
  }

  // ----- reading -----

  predicate IsBreak(c: char) {
    c == ' ' || c == '\t' || c == '\r' || c == '\n'
  }

  predicate IsQuote(c: char) {
    c == '\'' || c == '"'
  }

  /** What may follow a backslash that escapes it. */
  predicate IsEscapable(c: char) {
    IsQuote(c) || c == '\\' || c == ' '
  }

  datatype Word = Word(text: string, closed: bool)

  function Prepend(c: char, w: Word): Word {
    w.(text := [c] + w.text)
  }

  /** The first word of a command, read within the given quote; `closed` says that no quote is left open. */
  function FirstWord(command: string, quote: Option<char>): Word {
    if command == "" || (quote.None? && IsBreak(command[0])) then Word("", quote.None?)
    else
      var c := command[0];
      if IsQuote(c) && quote.None? then FirstWord(command[1..], Some(c))
      else if IsQuote(c) && quote == Some(c) then FirstWord(command[1..], None)
      else if c == '\\' && quote != Some('\'') && |command| > 1 && IsEscapable(command[1])
      then Prepend(command[1], FirstWord(command[2..], quote))
      else Prepend(c, FirstWord(command[1..], quote))
  }

  /** The byte loop of the tokenizer. */
  method ReadWord(command: string) returns (executable: string, closed: bool)
    ensures FirstWord(command, None) == Word(executable, closed)
  {
    executable := "";
    var quote: Option<char> := None;
    var i := 0;
    while i < |command|
      invariant 0 <= i <= |command|
      invariant FirstWord(command, None)
                == var w := FirstWord(command[i..], quote); Word(executable + w.text, w.closed)
    {
      var c := command[i];
      if quote.None? && IsBreak(c) { return executable, true; }
      if IsQuote(c) {
        if quote.None? {
          quote := Some(c);
          i := i + 1;
          continue;
        }
        if quote == Some(c) {
          quote := None;
          i := i + 1;
          continue;
        }
      }
      if c == '\\' && quote != Some('\'') && i + 1 < |command| {
        var next := command[i + 1];
        if IsEscapable(next) {
          assert command[i..][2..] == command[i + 2..];
          executable := executable + [next];
          i := i + 2;
          continue;
        }
      }
      assert command[i..][1..] == command[i + 1..];
      executable := executable + [c];
      i := i + 1;
    }
    closed := quote.None?;
  }

  // ----- the round trip -----

  predicate IsSuffix(rest: string) {
    rest == "" || IsBreak(rest[0])
  }

  lemma QuoteText(a: string, b: string)
    ensures QUOTE_QUOTE + a + b == "'" + ("\"" + ("'" + ("\"" + ("'" + (a + b)))))
  {
  }

  lemma CharText(c: char, a: string, b: string)
    ensures [c] + a + b == [c] + (a + b)
  {
  }

  lemma {:induction false} EscapedReads(value: string, rest: string)
    requires IsSuffix(rest)
    ensures FirstWord(Escaped(value) + ("'" + rest), Some('\'')) == Word(value, true)
  {
    if value == "" {
      assert Escaped(value) + ("'" + rest) == "'" + rest;
      assert ("'" + rest)[1..] == rest;
      if rest != "" { assert FirstWord(rest, None) == Word("", true); }
    } else {
      EscapedReads(value[1..], rest);
      if value[0] == '\'' {
        QuoteText(Escaped(value[1..]), "'" + rest);
        QuoteReads(Escaped(value[1..]) + ("'" + rest));
      } else {
        CharText(value[0], Escaped(value[1..]), "'" + rest);
        PlainReads(value[0], Escaped(value[1..]) + ("'" + rest));
      }
      assert value == [value[0]] + value[1..];
    }
  }

  lemma PlainReads(c: char, more: string)
    requires c != '\''
    ensures FirstWord([c] + more, Some('\'')) == Prepend(c, FirstWord(more, Some('\'')))
  {
    assert ([c] + more)[1..] == more;
  }

  lemma QuoteReads(more: string)
    ensures FirstWord("'" + ("\"" + ("'" + ("\"" + ("'" + more)))), Some('\'')) == Prepend('\'', FirstWord(more, Some('\'')))
  {
    var s4 := "'" + more;
    var s3 := "\"" + s4;
    var s2 := "'" + s3;
    var s1 := "\"" + s2;
    assert ("'" + s1)[1..] == s1 && s1[1..] == s2 && s2[1..] == s3 && s3[1..] == s4 && s4[1..] == more;
    assert FirstWord(s4, None) == FirstWord(more, Some('\''));
    assert FirstWord(s3, Some('"')) == FirstWord(s4, None);
    assert FirstWord(s2, Some('"')) == Prepend('\'', FirstWord(s3, Some('"')));
    assert FirstWord(s1, None) == FirstWord(s2, Some('"'));
  }

  /** The first word of a quoted value, whatever follows it after a break, is the value. */
  lemma QuotedReads(value: string, rest: string)
    requires IsSuffix(rest)
    ensures FirstWord(ShellQuote(value) + rest, None) == Word(value, true)
  {
    EscapedReads(value, rest);
    assert ShellQuote(value) + rest == "'" + (Escaped(value) + ("'" + rest));
    assert ("'" + (Escaped(value) + ("'" + rest)))[1..] == Escaped(value) + ("'" + rest);
  }

  /** The Windows form: a path in double quotes, free of double quotes and backslashes. */
  function DoubleQuote(value: string): string {
    "\"" + value + "\""
  }

  lemma {:induction false} DoubleReads(value: string, rest: string)
    requires IsSuffix(rest) && '"' !in value && '\\' !in value
    ensures FirstWord(value + "\"" + rest, Some('"')) == Word(value, true)
  {
    if value == "" {
      assert value + "\"" + rest == "\"" + rest;
      assert ("\"" + rest)[1..] == rest;
    } else {
      var more := value[1..] + "\"" + rest;
      assert value + "\"" + rest == [value[0]] + more;
      assert ([value[0]] + more)[1..] == more;
      DoubleReads(value[1..], rest);
      assert value == [value[0]] + value[1..];
    }
  }

  lemma DoubleQuotedReads(value: string, rest: string)
    requires IsSuffix(rest) && '"' !in value && '\\' !in value
    ensures FirstWord(DoubleQuote(value) + rest, None) == Word(value, true)
  {
    DoubleReads(value, rest);
    assert DoubleQuote(value) + rest == "\"" + (value + "\"" + rest);
    assert ("\"" + (value + "\"" + rest))[1..] == value + "\"" + rest;
  }

  /** A third form: a backslash before every quote, backslash and space. */
  function Backslashed(value: string): string {
    if value == "" then ""
    else (if IsEscapable(value[0]) then ['\\', value[0]] else [value[0]]) + Backslashed(value[1..])
  }

  lemma EscapeReads(c: char, more: string)
    ensures IsEscapable(c) ==> FirstWord(['\\', c] + more, None) == Prepend(c, FirstWord(more, None))
    ensures !IsEscapable(c) && !IsBreak(c) ==> FirstWord([c] + more, None) == Prepend(c, FirstWord(more, None))
  {
    assert (['\\', c] + more)[2..] == more && ([c] + more)[1..] == more;
  }

  /** So does a word with backslashes, if it holds no line breaks or tabs. */
  lemma {:induction false} BackslashedReads(value: string, rest: string)
    requires IsSuffix(rest) && '\t' !in value && '\r' !in value && '\n' !in value
    ensures FirstWord(Backslashed(value) + rest, None) == Word(value, true)
  {
    if value == "" {
      assert Backslashed(value) + rest == rest;
    } else {
      var more := Backslashed(value[1..]) + rest;
      BackslashedReads(value[1..], rest);
      assert Backslashed(value) + rest == (if IsEscapable(value[0]) then ['\\', value[0]] else [value[0]]) + more;
      EscapeReads(value[0], more);
      assert value == [value[0]] + value[1..];
    }
  }

  // ----- which executables are keydris -----

  /** Lower case, as far as it can yield one of the letters compared with. */
  function Lower(c: char): char {
    if 'A' <= c <= 'Z' then c + 32 as char
    else if c == '\U{212A}' then 'k'
    else if c == '\U{0130}' then 'i'
    else c
  }

  function Lowered(s: string): string {
    seq(|s|, i requires 0 <= i < |s| => Lower(s[i]))
  }

  function Slashed(s: string): string {
    seq(|s|, i requires 0 <= i < |s| => if s[i] == '\\' then '/' else s[i])
  }

  function WithoutSlashes(path: string): string {
    if path != "" && path[|path| - 1] == '/' then WithoutSlashes(path[..|path| - 1]) else path
  }

  function AfterSlash(path: string): string {
    if path == "" || path[|path| - 1] == '/' then "" else AfterSlash(path[..|path| - 1]) + [path[|path| - 1]]
  }

  /** The last element of a path. */
  function Base(path: string): string {
    if path == "" then "."
    else
      var base := AfterSlash(WithoutSlashes(path));
      if base == "" then "/" else base
  }

  predicate IsKeydrisPath(path: string) {
    var base := Lowered(Base(Slashed(path)));
    base == "keydris" || base == "keydris.exe"
  }

  lemma {:induction false} AfterSlashNamed(dir: string, name: string)
    requires '/' !in name
    ensures AfterSlash(dir + "/" + name) == name
  {
    var path := dir + "/" + name;
    if name == "" {
      assert path[|path| - 1] == '/';
    } else {
      AfterSlashNamed(dir, name[..|name| - 1]);
      assert path[..|path| - 1] == dir + "/" + name[..|name| - 1];
      assert name == name[..|name| - 1] + [name[|name| - 1]];
    }
  }

  /** `c` is the letter `l` in either case, or one of the two signs whose lower case it is. */
  predicate IsEitherCase(c: char, l: char) {
    || c == l || ('a' <= l <= 'z' && c as int + 32 == l as int)
    || (l == 'k' && c == '\U{212A}') || (l == 'i' && c == '\U{0130}')
  }

  predicate IsCalled(name: string, word: string) {
    |name| == |word| && forall i :: 0 <= i < |word| ==> IsEitherCase(name[i], word[i])
  }

  lemma LoweredIs(name: string, word: string)
    requires forall i :: 0 <= i < |word| ==> 'a' <= word[i] <= 'z' || word[i] == '.'
    ensures Lowered(name) == word <==> IsCalled(name, word)
  {
    if |name| == |word| {
      forall i | 0 <= i < |word| ensures Lowered(name)[i] == word[i] <==> IsEitherCase(name[i], word[i]) {}
    }
  }

  lemma BaseOf(dir: string, name: string)
    requires name != "" && '/' !in name && '\\' !in name
    ensures Base(Slashed(dir + "/" + name)) == name && Base(Slashed(name)) == name
  {
    var path := dir + "/" + name;
    assert Slashed(name) == name;
    assert Slashed(path) == Slashed(dir) + "/" + name;
    assert Slashed(path)[|path| - 1] == name[|name| - 1];
    AfterSlashNamed(Slashed(dir), name);
    BareName(name);
  }

  lemma {:induction false} BareName(name: string)
    requires '/' !in name
    ensures AfterSlash(name) == name
  {
    if name != "" {
      BareName(name[..|name| - 1]);
      assert name == name[..|name| - 1] + [name[|name| - 1]];
    }
  }

  /** In whatever directory it is, an executable is recognised exactly when it is called keydris or keydris.exe, in any case. */
  lemma KeydrisIsRecognised(dir: string, name: string)
    requires name != "" && '/' !in name && '\\' !in name
    ensures IsKeydrisPath(dir + "/" + name) <==> IsCalled(name, "keydris") || IsCalled(name, "keydris.exe")
    ensures IsKeydrisPath(name) <==> IsCalled(name, "keydris") || IsCalled(name, "keydris.exe")
  {
    BaseOf(dir, name);
    LoweredIs(name, "keydris");
    LoweredIs(name, "keydris.exe");
  }

  // ----- which commands are hooks of keydris -----

  predicate IsSpace(c: char) {
    || '\t' <= c <= '\r' || c == ' ' || c == '\U{0085}' || c == '\U{00A0}' || c == '\U{1680}'
    || '\U{2000}' <= c <= '\U{200A}' || c == '\U{2028}' || c == '\U{2029}' || c == '\U{202F}' || c == '\U{205F}' || c == '\U{3000}'
  }

  function TrimLeft(s: string): string {
    if s != "" && IsSpace(s[0]) then TrimLeft(s[1..]) else s
  }

  function TrimRight(s: string): string {
    if s != "" && IsSpace(s[|s| - 1]) then TrimRight(s[..|s| - 1]) else s
  }

  function Trim(s: string): string {
    TrimRight(TrimLeft(s))
  }

  predicate IsKeydrisCommand(command: string) {
    var trimmed := Trim(command);
    var called := if "& " <= trimmed then trimmed[2..] else trimmed;
    var word := FirstWord(Trim(called), None);
    word.closed && IsKeydrisPath(word.text)
  }

  lemma {:induction false} TrimKeeps(kept: string, rest: string)
    requires kept != "" && !IsSpace(kept[|kept| - 1]) && IsSuffix(rest)
    ensures exists n :: 0 <= n <= |rest| && TrimRight(kept + rest) == kept + rest[..n] && IsSuffix(rest[..n])
  {
    var s := kept + rest;
    if rest == "" {
      assert s == kept && rest[..0] == "" && kept + rest[..0] == kept;
    } else if IsSpace(rest[|rest| - 1]) {
      var less := rest[..|rest| - 1];
      assert s[..|s| - 1] == kept + less;
      TrimKeeps(kept, less);
      var n :| 0 <= n <= |less| && TrimRight(kept + less) == kept + less[..n] && IsSuffix(less[..n]);
      assert rest[..n] == less[..n];
    } else {
      assert rest[..|rest|] == rest;
    }
  }

  /** Trimming a command that begins with a quoted word touches only what follows the word. */
  lemma TrimQuoted(quoted: string, rest: string) returns (left: string)
    requires quoted != "" && !IsSpace(quoted[0]) && !IsSpace(quoted[|quoted| - 1]) && IsSuffix(rest)
    ensures Trim(quoted + rest) == quoted + left && IsSuffix(left)
  {
    TrimKeeps(quoted, rest);
    var n :| 0 <= n <= |rest| && TrimRight(quoted + rest) == quoted + rest[..n] && IsSuffix(rest[..n]);
    left := rest[..n];
  }

  /** A hook command for `path` with any arguments is taken for one of keydris exactly when the path is. */
  lemma HookIsRecognised(path: string, arguments: string)
    requires IsSuffix(arguments)
    ensures IsKeydrisCommand(ShellQuote(path) + arguments) <==> IsKeydrisPath(path)
  {
    var quoted := ShellQuote(path);
    var left := TrimQuoted(quoted, arguments);
    assert (quoted + left)[0] == '\'';
    var again := TrimQuoted(quoted, left);
    QuotedReads(path, again);
  }

  /** The Windows form, which calls the quoted path with "&". */
  lemma CalledHookIsRecognised(path: string, arguments: string)
    requires IsSuffix(arguments) && '"' !in path && '\\' !in path
    ensures IsKeydrisCommand("& " + DoubleQuote(path) + arguments) <==> IsKeydrisPath(path)
  {
    var quoted := DoubleQuote(path);
    var called := "& " + quoted;
    var left := TrimQuoted(called, arguments);
    assert (called + left)[2..] == quoted + left;
    var again := TrimQuoted(quoted, left);
    DoubleQuotedReads(path, again);
  }
}
