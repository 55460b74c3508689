/** Lines as users write them: quoted names, comments, assignments of any value, and multi-line strings. */
module TomlHeaders {
  import opened JsonGrammar
  import opened CodexToml
  import opened Quoting
  import opened TomlLines

  predicate IsUnquoted(s: string) {
    '#' !in s && '"' !in s && '\'' !in s
  }

  lemma StripOne(c: char, rest: string)
    requires c != '#' && !IsQuote(c)
    ensures StripComment([c] + rest, None) == [c] + StripComment(rest, None)
  {
    assert ([c] + rest)[1..] == rest;
  }

  lemma Cons(a: string, rest: string)
    requires a != ""
    ensures a + rest == [a[0]] + (a[1..] + rest)
  {
  }

  /** Text without quotes and '#' stays, and what follows is read on its own. */
  lemma {:induction false} UnquotedStays(a: string, rest: string)
    requires IsUnquoted(a)
    ensures StripComment(a + rest, None) == a + StripComment(rest, None)
  {
    if a == "" {
      assert a + rest == rest;
    } else {
      UnquotedStays(a[1..], rest);
      Cons(a, rest);
      StripOne(a[0], a[1..] + rest);
      Cons(a, StripComment(rest, None));
    }
  }

  /** A quoted part stays as it is, also a '#' in it. */
  lemma {:induction false} QuotedStays(q: char, inner: string, rest: string)
    requires IsQuote(q) && q !in inner
    ensures StripComment(inner + ([q] + rest), Some(q)) == inner + ([q] + StripComment(rest, None))
  {
    if inner == "" {
      assert inner + ([q] + rest) == [q] + rest && ([q] + rest)[1..] == rest;
    } else {
      QuotedStays(q, inner[1..], rest);
      Cons(inner, [q] + rest);
      Cons(inner, [q] + StripComment(rest, None));
      assert ([inner[0]] + (inner[1..] + ([q] + rest)))[1..] == inner[1..] + ([q] + rest);
    }
  }

  lemma OpensQuote(q: char, rest: string)
    requires IsQuote(q)
    ensures StripComment([q] + rest, None) == [q] + StripComment(rest, Some(q))
  {
    assert ([q] + rest)[1..] == rest;
  }

  lemma CommentGoes(comment: string)
    ensures StripComment("#" + comment, None) == ""
  {
  }

  function QuotedHeader(prefix: string, q: char, name: string): string {
    "[" + prefix + "." + ([q] + (name + ([q] + "]")))
  }

  lemma HeaderText(front: string, q: char, name: string, comment: string)
    ensures front + ([q] + (name + ([q] + "]"))) + (" #" + comment) == front + ([q] + (name + ([q] + ("] #" + comment))))
    ensures front + ([q] + (name + ([q] + "] "))) == front + ([q] + (name + ([q] + "]"))) + " "
    ensures "] #" + comment == "] " + ("#" + comment)
  {
  }

  lemma HeaderStays(prefix: string, q: char, name: string, comment: string)
    requires AllPlain(prefix) && IsQuote(q) && q !in name
    ensures StripComment(QuotedHeader(prefix, q, name) + (" #" + comment), None) == QuotedHeader(prefix, q, name) + " "
  {
    var front := "[" + prefix + ".";
    assert IsUnquoted(front) by { assert forall c :: c in front ==> c == '[' || c == '.' || c in prefix; }
    var rest := "] #" + comment;
    HeaderText(front, q, name, comment);
    UnquotedStays(front, [q] + (name + ([q] + rest)));
    OpensQuote(q, name + ([q] + rest));
    QuotedStays(q, name, rest);
    UnquotedStays("] ", "#" + comment);
    CommentGoes(comment);
    assert "] " + "" == "] ";
  }

  lemma CleanQuoted(q: char, name: string)
    requires IsPlainText(name) && IsQuote(q)
    ensures TrimQuotes(Trim([q] + name + [q])) == name
  {
    var s := [q] + name + [q];
    TrimTight(s);
    assert s[1..] == name + [q] && (name + [q])[..|name|] == name;
    CleanPlain(name);
    TrimTight(name);
    assert TrimQuotes(name) == name;
  }

  lemma {:induction false} JoinLast(fields: seq<string>, last: string)
    requires fields != []
    ensures JoinWith(fields + [last], '.') == JoinWith(fields, '.') + ['.'] + last
  {
    assert (fields + [last])[..|fields|] == fields;
  }

  lemma CleanMore(fields: seq<string>, last: string)
    ensures CleanAll(fields + [last]) == CleanAll(fields) + [TrimQuotes(Trim(last))]
  {
  }

  lemma KeyOfFields(prefix: string, q: char, name: string)
    requires AllPlain(prefix) && IsServerName(name) && IsQuote(q)
    ensures JoinWith(CleanAll(SplitOn(prefix + ['.'] + ([q] + name + [q]), '.')), '.') == prefix + ['.'] + name
  {
    var quoted := [q] + name + [q];
    SplitField(prefix, '.', quoted);
    SplitPlain(prefix, '.');
    var fields := SplitOn(prefix, '.');
    forall i | 0 <= i < |fields| ensures CleanAll(fields)[i] == fields[i] { CleanPlain(fields[i]); }
    assert CleanAll(fields) == fields;
    CleanMore(fields, quoted);
    CleanQuoted(q, name);
    JoinLast(fields, name);
    JoinSplit(prefix, '.');
  }

  lemma TrimBlankEnd(s: string)
    requires s != "" && !Quoting.IsSpace(s[0]) && !Quoting.IsSpace(s[|s| - 1])
    ensures Trim(s + " ") == s
  {
    assert (s + " ")[..|s|] == s;
    TrimTight(s);
    assert TrimLeft(s + " ") == s + " ";
  }

  lemma TableKeyIs(line: string, t: string, inner: string, key: string)
    requires Trim(StripComment(line, None)) == t && |t| >= 2 && t[0] == '[' && t[|t| - 1] == ']' && t[1] != '['
    requires Trim(t[1..|t| - 1]) == inner && inner != "" && JoinWith(CleanAll(SplitOn(inner, '.')), '.') == key
    ensures TableKey(line) == Some(key)
  {
  }

  function QuotedKey(prefix: string, q: char, name: string): string {
    prefix + ['.'] + ([q] + name + [q])
  }

  lemma HeaderParts(prefix: string, q: char, name: string)
    requires IsPlainText(prefix)
    ensures var header := QuotedHeader(prefix, q, name);
            && |header| >= 2 && header[0] == '[' && header[1] == prefix[0] && header[|header| - 1] == ']'
            && header[1..|header| - 1] == QuotedKey(prefix, q, name)
  {
    assert QuotedHeader(prefix, q, name) == "[" + QuotedKey(prefix, q, name) + "]";
  }

  lemma KeyIsTight(prefix: string, q: char, name: string)
    requires IsPlainText(prefix) && IsQuote(q)
    ensures QuotedKey(prefix, q, name) != "" && Trim(QuotedKey(prefix, q, name)) == QuotedKey(prefix, q, name)
  {
    var key := QuotedKey(prefix, q, name);
    assert key[0] == prefix[0] && key[|key| - 1] == q;
    TrimTight(key);
  }

  lemma HeaderTrims(prefix: string, q: char, name: string, comment: string)
    requires IsPlainText(prefix) && IsQuote(q) && q !in name
    ensures Trim(StripComment(QuotedHeader(prefix, q, name) + (" #" + comment), None)) == QuotedHeader(prefix, q, name)
  {
    HeaderStays(prefix, q, name, comment);
    HeaderParts(prefix, q, name);
    TrimBlankEnd(QuotedHeader(prefix, q, name));
  }

  lemma InnerTrims(prefix: string, q: char, name: string)
    requires IsPlainText(prefix) && IsQuote(q)
    ensures var header := QuotedHeader(prefix, q, name);
            && |header| >= 2 && header[0] == '[' && header[1] != '[' && header[|header| - 1] == ']'
            && Trim(header[1..|header| - 1]) == QuotedKey(prefix, q, name) && QuotedKey(prefix, q, name) != ""
  {
    HeaderParts(prefix, q, name);
    KeyIsTight(prefix, q, name);
  }

  lemma NameHasNoQuote(q: char, name: string)
    requires IsServerName(name) && IsQuote(q)
    ensures q !in name
  {
  }

  /** A table line whose last part is quoted, with a comment after it, has the same key as the plain one: such a table of a
      server is recognised and replaced like the editor's own. */
  lemma QuotedTable(prefix: string, q: char, name: string, comment: string)
    requires IsPlainText(prefix) && IsServerName(name) && IsQuote(q)
    ensures TableKey(QuotedHeader(prefix, q, name) + (" #" + comment)) == Some(prefix + ['.'] + name)
    ensures TableKey(HeaderOf(prefix + ['.'] + name)) == Some(prefix + ['.'] + name)
  {
    var header := QuotedHeader(prefix, q, name);
    NameHasNoQuote(q, name);
    HeaderTrims(prefix, q, name, comment);
    InnerTrims(prefix, q, name);
    KeyOfFields(prefix, q, name);
    TableKeyIs(header + (" #" + comment), header, QuotedKey(prefix, q, name), prefix + ['.'] + name);
    PlainTable(prefix + ['.'] + name);
  }

  // ----- assignments -----

  lemma StripEquals(front: string, value: string)
    requires IsUnquoted(front)
    ensures StripComment(front + ("=" + value), None) == front + ("=" + StripComment(value, None))
  {
    UnquotedStays(front, "=" + value);
    StripOne('=', value);
  }

  lemma KeyIsBefore(front: string, value: string)
    requires '=' !in front
    ensures Before(front + ("=" + value), '=') == Some(front)
  {
    BeforeFound(front, '=', value);
    assert front + ['='] + value == front + ("=" + value);
  }

  lemma PlainIsUnquoted(key: string)
    requires AllPlain(key)
    ensures IsUnquoted(key + " ") && '=' !in key + " " && '=' !in key
  {
    assert forall c :: c in key + " " ==> c in key || c == ' ';
  }

  /** An assignment of a plain key is one of that key, whatever its value and comment are. */
  lemma PlainAssignment(key: string, value: string)
    requires IsPlainText(key)
    ensures BareKey(key + " " + ("=" + value)) == key
  {
    PlainIsUnquoted(key);
    StripEquals(key + " ", value);
    KeyIsBefore(key + " ", StripComment(value, None));
    TrimAfter(key);
  }

  lemma QuotedFront(q: char, key: string, value: string)
    requires AllPlain(key) && IsQuote(q)
    ensures StripComment([q] + (key + ([q] + ("=" + value))), None) == [q] + key + [q] + ("=" + StripComment(value, None))
  {
    OpensQuote(q, key + ([q] + ("=" + value)));
    QuotedStays(q, key, "=" + value);
    StripOne('=', value);
    assert [q] + (key + ([q] + ("=" + StripComment(value, None)))) == [q] + key + [q] + ("=" + StripComment(value, None));
  }

  /** So is one of the quoted key. */
  lemma QuotedAssignment(q: char, key: string, value: string)
    requires IsPlainText(key) && IsQuote(q)
    ensures BareKey([q] + (key + ([q] + ("=" + value)))) == key
  {
    PlainIsUnquoted(key);
    QuotedFront(q, key, value);
    KeyIsBefore([q] + key + [q], StripComment(value, None));
    CleanQuoted(q, key);
  }

  // ----- multi-line strings -----

  lemma {:induction false} CountAfter(a: string, d: Delimiter, rest: string)
    requires HasNoQuotes(a)
    ensures Count(a + (TomlLines.Text(d) + rest), d) == 1 + Count(rest, d)
  {
    var line := a + (TomlLines.Text(d) + rest);
    if a == "" {
      assert line == TomlLines.Text(d) + rest && line[..3] == TomlLines.Text(d) && line[3..] == rest;
    } else {
      CountAfter(a[1..], d, rest);
      assert line[1..] == a[1..] + (TomlLines.Text(d) + rest);
      assert line[..3][0] == a[0];
    }
  }

  lemma {:induction false} OtherCount(a: string, d: Delimiter, other: Delimiter, rest: string)
    requires HasNoQuotes(a) && other != d && HasNoQuotes(rest)
    ensures Count(a + (TomlLines.Text(d) + rest), other) == 0
  {
    var line := a + (TomlLines.Text(d) + rest);
    if a == "" {
      OtherCountHere(d, other, rest);
      assert line == TomlLines.Text(d) + rest;
    } else {
      OtherCount(a[1..], d, other, rest);
      assert line[1..] == a[1..] + (TomlLines.Text(d) + rest);
      assert line[..3][0] == a[0];
    }
  }

  lemma SkipOne(c: char, rest: string, other: Delimiter)
    requires c != TomlLines.Text(other)[0]
    ensures Count([c] + rest, other) == Count(rest, other)
  {
    var line := [c] + rest;
    assert line[1..] == rest;
    if |line| >= 3 { assert line[..3][0] == c; }
  }

  lemma OtherCountHere(d: Delimiter, other: Delimiter, rest: string)
    requires other != d && HasNoQuotes(rest)
    ensures Count(TomlLines.Text(d) + rest, other) == 0
  {
    var q := TomlLines.Text(d)[0];
    assert TomlLines.Text(d) + rest == [q] + ([q] + ([q] + rest));
    SkipOne(q, [q] + ([q] + rest), other);
    SkipOne(q, [q] + rest, other);
    SkipOne(q, rest, other);
    NoQuotesNoDelimiter(rest, other);
  }

  /** A line with one delimiter opens a multi-line string, and closes an open one of its kind; one with two does not open. */
  lemma DelimiterOpens(a: string, d: Delimiter, b: string)
    requires HasNoQuotes(a) && HasNoQuotes(b)
    ensures Opens(a + (TomlLines.Text(d) + b)) == Some(d)
    ensures forall e :: LINES.closes(a + (TomlLines.Text(d) + b), e) <==> e == d
    ensures Count(a + (TomlLines.Text(d) + (b + (TomlLines.Text(d) + b))), d) == 2
  {
    CountAfter(a, d, b);
    NoQuotesNoDelimiter(b, d);
    forall e | e != d ensures Count(a + (TomlLines.Text(d) + b), e) == 0 { OtherCount(a, d, e, b); }
    CountAfter(a, d, b + (TomlLines.Text(d) + b));
    CountAfter(b, d, b);
  }

  // ----- strings hide tables -----

  /** Reading on from `r`. */
  function ReadOn(L: LineRules, r: Reading, lines: seq<string>): (next: Reading)
    requires r.sections != []
    ensures next.sections != []
  {
    if lines == [] then r else ReadLine(L, ReadOn(L, r, lines[..|lines| - 1]), lines[|lines| - 1])
  }

  function Longer(doc: seq<Section>, lines: seq<string>): seq<Section>
    requires doc != []
  {
    var n := |doc| - 1;
    doc[n := doc[n].(body := doc[n].body + lines)]
  }

  lemma LongerMore(doc: seq<Section>, lines: seq<string>, line: string)
    requires doc != []
    ensures Longer(Longer(doc, lines), [line]) == Longer(doc, lines + [line])
  {
    var n := |doc| - 1;
    assert doc[n].body + lines + [line] == doc[n].body + (lines + [line]);
  }

  /** Inside a multi-line string every line is body text, a table line too. */
  lemma {:induction false} StringTakesAll(L: LineRules, r: Reading, d: Delimiter, inner: seq<string>)
    requires r.sections != [] && r.open == Some(d) && forall i :: 0 <= i < |inner| ==> !L.closes(inner[i], d)
    ensures ReadOn(L, r, inner) == CodexToml.Reading(Longer(r.sections, inner), Some(d))
  {
    if inner == [] {
      var n := |r.sections| - 1;
      assert r.sections[n].body + [] == r.sections[n].body;
      assert Longer(r.sections, []) == r.sections;
    } else {
      var m := |inner| - 1;
      StringTakesAll(L, r, d, inner[..m]);
      LongerMore(r.sections, inner[..m], inner[m]);
      assert inner[..m] + [inner[m]] == inner;
    }
  }

  /** The line that closes it is the last of the body text; the next table line starts a table. */
  lemma TableAfterString(L: LineRules, r: Reading, d: Delimiter, inner: seq<string>, last: string, table: string)
    requires r.sections != [] && r.open == Some(d) && (forall i :: 0 <= i < |inner| ==> !L.closes(inner[i], d))
    requires L.closes(last, d) && L.header(table).Some?
    ensures ReadOn(L, r, inner + [last] + [table])
            == CodexToml.Reading(Longer(r.sections, inner + [last]) + [Section(L.header(table).value, table, [])], L.opens(table))
  {
    StringTakesAll(L, r, d, inner);
    assert (inner + [last])[..|inner|] == inner;
    assert (inner + [last] + [table])[..|inner| + 1] == inner + [last];
    LongerMore(r.sections, inner, last);
  }
}
