/** What single lines of the configuration file mean to its editor. */
module TomlLines {
  import opened JsonGrammar
  import opened CodexToml
  import opened TomlEdits
  import opened TomlBlanks
  import opened TomlFits
  import opened Quoting

  // ----- comments, keys and delimiters -----

  /** The line up to a '#' outside quotes. */
  function StripComment(line: string, quote: Option<char>): string {
    if line == "" then ""
    else if quote.Some? then [line[0]] + StripComment(line[1..], if line[0] == quote.value then None else quote)
    else if line[0] == '#' then ""
    else [line[0]] + StripComment(line[1..], if IsQuote(line[0]) then Some(line[0]) else None)
  }

  function TrimQuotes(s: string): string {
    if s != "" && IsQuote(s[0]) then TrimQuotes(s[1..])
    else if s != "" && IsQuote(s[|s| - 1]) then TrimQuotes(s[..|s| - 1])
    else s
  }

  /** The fields between separators; there is always one. */
  function SplitOn(s: string, separator: char): (r: seq<string>)
    ensures r != []
  {
    if s == "" then [""]
    else
      var r := SplitOn(s[..|s| - 1], separator);
      if s[|s| - 1] == separator then r + [""] else r[|r| - 1 := r[|r| - 1] + [s[|s| - 1]]]
  }

  function JoinWith(fields: seq<string>, separator: char): string {
    if fields == [] then ""
    else if |fields| == 1 then fields[0]
    else JoinWith(fields[..|fields| - 1], separator) + [separator] + fields[|fields| - 1]
  }

  function CleanAll(fields: seq<string>): (r: seq<string>)
    ensures |r| == |fields| && forall i :: 0 <= i < |r| ==> r[i] == TrimQuotes(Trim(fields[i]))
  {
    if fields == [] then [] else CleanAll(fields[..|fields| - 1]) + [TrimQuotes(Trim(fields[|fields| - 1]))]
  }

  /** The normalized key of a table line; arrays of tables are none. */
  function TableKey(line: string): Option<string> {
    var t := Trim(StripComment(line, None));
    if |t| < 2 || t[0] != '[' || t[|t| - 1] != ']' || t[1] == '[' then None
    else
      var inner := Trim(t[1..|t| - 1]);
      if inner == "" then None else Some(JoinWith(CleanAll(SplitOn(inner, '.')), '.'))
  }

  function Before(s: string, c: char): Option<string> {
    if s == "" then None else if s[0] == c then Some("")
    else
      var rest := Before(s[1..], c);
      if rest.None? then None else Some([s[0]] + rest.value)
  }

  /** The key a `key = value` line assigns. */
  function BareKey(line: string): string {
    var key := Before(StripComment(line, None), '=');
    if key.None? then "" else TrimQuotes(Trim(key.value))
  }

  function Text(d: Delimiter): string {
    if d == ThreeDouble then "\"\"\"" else "'''"
  }

  function Count(line: string, d: Delimiter): nat {
    if |line| < 3 then 0
    else if line[..3] == Text(d) then 1 + Count(line[3..], d)
    else Count(line[1..], d)
  }

  function Opens(line: string): Option<Delimiter> {
    if Count(line, ThreeDouble) % 2 == 1 then Some(ThreeDouble)
    else if Count(line, ThreeSingle) % 2 == 1 then Some(ThreeSingle) else None
  }

  const LINES := LineRules(TableKey, Opens, (line: string, d: Delimiter) => Count(line, d) > 0)

  // ----- the editor's own lines -----

  const MARKER := "# keydris-managed-mcp-servers:"
  const FLAG_KEY := "experimental_use_rmcp_client"
  const FEATURES := "features"
  const SERVER_PREFIX := "mcp_servers."

  function HeaderOf(key: string): string {
    "[" + key + "]"
  }

  function ServerKey(name: string): string {
    SERVER_PREFIX + name
  }

  function ServerName(key: string): Option<string> {
    if SERVER_PREFIX <= key then Some(key[|SERVER_PREFIX|..]) else None
  }

  predicate IsMarker(line: string) {
    MARKER <= Trim(line)
  }

  function NonEmpty(fields: seq<string>): seq<string> {
    if fields == [] then []
    else NonEmpty(fields[..|fields| - 1]) + if Trim(fields[|fields| - 1]) == "" then [] else [Trim(fields[|fields| - 1])]
  }

  function MarkedNames(line: string): seq<string> {
    if IsMarker(line) then NonEmpty(SplitOn(Trim(line)[|MARKER|..], ',')) else []
  }

  function MarkerOf(names: seq<string>): string {
    MARKER + (" " + JoinWith(names, ','))
  }

  predicate IsFlag(line: string) {
    BareKey(line) == FLAG_KEY
  }

  function OwnLines(order: set<string> -> seq<string>): Own {
    Own(IsMarker, MarkedNames, MarkerOf, IsFlag, FLAG_KEY + " = true", FEATURES, ServerName, ServerKey, HeaderOf, order)
  }

  // ----- what lines of plain characters mean -----

  /** A character that no helper treats specially. */
  predicate IsPlain(c: char) {
    IsLetter(c) || c == '.' || c == '-' || c == '_'
  }

  predicate IsLetter(c: char) {
    '0' <= c <= '9' || 'A' <= c <= 'Z' || 'a' <= c <= 'z'
  }

  predicate AllPlain(s: string) {
    forall i :: 0 <= i < |s| ==> IsPlain(s[i])
  }

  predicate IsPlainText(s: string) {
    s != "" && AllPlain(s)
  }

  /** The names servers get: letters, digits, dashes and underscores. */
  predicate IsServerName(s: string) {
    IsPlainText(s) && '.' !in s
  }

  lemma {:induction false} StripNone(line: string)
    requires '#' !in line && '"' !in line && '\'' !in line
    ensures StripComment(line, None) == line
  {
    if line != "" {
      StripNone(line[1..]);
      assert line == [line[0]] + line[1..];
    }
  }

  lemma TrimTight(s: string)
    requires s != "" && !Quoting.IsSpace(s[0]) && !Quoting.IsSpace(s[|s| - 1])
    ensures Trim(s) == s
  {
  }

  lemma CleanPlain(s: string)
    requires AllPlain(s)
    ensures TrimQuotes(Trim(s)) == s
  {
    if s != "" { TrimTight(s); }
  }

  lemma {:induction false} JoinSplit(s: string, separator: char)
    ensures JoinWith(SplitOn(s, separator), separator) == s
  {
    if s != "" {
      var front, c := s[..|s| - 1], s[|s| - 1];
      JoinSplit(front, separator);
      var r := SplitOn(front, separator);
      if c == separator {
        assert (r + [""])[..|r|] == r;
        assert front + [c] + "" == s;
      } else {
        var last := |r| - 1;
        var longer := r[last := r[last] + [c]];
        assert longer[..last] == r[..last];
        if |r| > 1 {
          assert JoinWith(r[..last], separator) + [separator] + (r[last] + [c]) == JoinWith(r[..last], separator) + [separator] + r[last] + [c];
        }
        assert front + [c] == s;
      }
    }
  }

  lemma {:induction false} SplitPlain(s: string, separator: char)
    requires AllPlain(s)
    ensures forall k :: 0 <= k < |SplitOn(s, separator)| ==> AllPlain(SplitOn(s, separator)[k])
  {
    if s != "" {
      var r := SplitOn(s[..|s| - 1], separator);
      SplitPlain(s[..|s| - 1], separator);
      assert AllPlain(r[|r| - 1] + [s[|s| - 1]]);
    }
  }

  /** A table line of a plain key has that key. */
  lemma PlainTable(key: string)
    requires IsPlainText(key)
    ensures TableKey(HeaderOf(key)) == Some(key)
  {
    var line := HeaderOf(key);
    assert '#' !in line && '"' !in line && '\'' !in line by {
      forall c | c in line ensures c == '[' || c == ']' || IsPlain(c) {}
    }
    StripNone(line);
    TrimTight(line);
    assert line[1] == key[0] && line[1..|line| - 1] == key;
    TrimTight(key);
    SplitPlain(key, '.');
    var fields := SplitOn(key, '.');
    forall i | 0 <= i < |fields| ensures CleanAll(fields)[i] == fields[i] { CleanPlain(fields[i]); }
    assert CleanAll(fields) == fields;
    JoinSplit(key, '.');
  }

  /** A line without quotes opens and closes nothing. */
  lemma {:induction false} NoQuotesNoDelimiter(line: string, d: Delimiter)
    requires '"' !in line && '\'' !in line
    ensures Count(line, d) == 0
  {
    if |line| >= 3 {
      assert line[..3] != Text(d) by { assert line[..3][0] in line; }
      NoQuotesNoDelimiter(line[1..], d);
    }
  }

  lemma NoQuotesStill(line: string)
    requires '"' !in line && '\'' !in line
    ensures IsStill(LINES, line)
  {
    NoQuotesNoDelimiter(line, ThreeDouble);
    NoQuotesNoDelimiter(line, ThreeSingle);
    forall d ensures Count(line, d) == 0 { NoQuotesNoDelimiter(line, d); }
  }

  lemma {:induction false} TrimRightStarts(s: string)
    requires s != "" && !Quoting.IsSpace(s[0])
    ensures TrimRight(s) != "" && TrimRight(s)[0] == s[0]
  {
    if Quoting.IsSpace(s[|s| - 1]) { TrimRightStarts(s[..|s| - 1]); }
  }

  /** Only a line whose first character is a space or a bracket can be a table line. */
  lemma NotTable(line: string)
    requires line == "" || (!Quoting.IsSpace(line[0]) && line[0] != '[')
    ensures TableKey(line).None?
  {
    var stripped := StripComment(line, None);
    if stripped != "" {
      assert stripped[0] == line[0];
      TrimRightStarts(stripped);
    }
  }

  lemma NotMarker(line: string)
    requires line == "" || (!Quoting.IsSpace(line[0]) && line[0] != '#')
    ensures !IsMarker(line)
  {
    if line != "" { TrimRightStarts(line); }
  }

  // ----- the marker -----

  lemma Pushed(a: string, p: string)
    requires p != ""
    ensures a + p[..|p| - 1] + [p[|p| - 1]] == a + p
  {
  }

  lemma SplitMore(s: string, separator: char, p: string)
    requires separator !in p
    ensures var r := SplitOn(s, separator); SplitOn(s + p, separator) == r[|r| - 1 := r[|r| - 1] + p]
    decreases |p|
  {
    var r := SplitOn(s, separator);
    if p == "" {
      assert s + p == s && r[|r| - 1] + p == r[|r| - 1];
    } else {
      var m := |p| - 1;
      SplitMore(s, separator, p[..m]);
      assert (s + p)[..|s + p| - 1] == s + p[..m];
      Pushed(r[|r| - 1], p);
    }
  }

  lemma SplitField(s: string, separator: char, p: string)
    requires separator !in p
    ensures SplitOn(s + [separator] + p, separator) == SplitOn(s, separator) + [p]
  {
    assert (s + [separator])[..|s|] == s;
    SplitMore(s + [separator], separator, p);
    assert "" + p == p;
  }

  predicate AreNames(names: seq<string>) {
    names != [] && forall i :: 0 <= i < |names| ==> IsServerName(names[i])
  }

  lemma NameIsTight(name: string)
    requires IsServerName(name)
    ensures ',' !in name && Trim(name) == name && Trim(" " + name) == name
  {
    TrimTight(name);
    assert (" " + name)[1..] == name;
  }

  /** Joined with commas after a blank, the names read back. */
  predicate ReadsBack(names: seq<string>) {
    NonEmpty(SplitOn(" " + JoinWith(names, ','), ',')) == names
  }

  lemma OneReadsBack(name: string)
    requires IsServerName(name)
    ensures ReadsBack([name])
  {
    NameIsTight(name);
    SplitMore("", ',', " " + name);
    assert "" + (" " + name) == " " + name;
    assert SplitOn(" " + name, ',') == [" " + name];
    assert [" " + name][..0] == [];
  }

  lemma NonEmptyMore(fields: seq<string>, name: string)
    requires IsServerName(name)
    ensures NonEmpty(fields + [name]) == NonEmpty(fields) + [name]
  {
    NameIsTight(name);
    assert (fields + [name])[..|fields|] == fields;
  }

  lemma JoinMore(front: seq<string>, name: string)
    requires front != []
    ensures " " + JoinWith(front + [name], ',') == " " + JoinWith(front, ',') + [','] + name
  {
    assert (front + [name])[..|front|] == front;
    Spaced(JoinWith(front, ','), [','], name);
  }

  lemma Spaced(a: string, b: string, c: string)
    ensures " " + (a + b + c) == " " + a + b + c
  {
  }

  lemma MoreReadsBack(front: seq<string>, name: string)
    requires front != [] && IsServerName(name) && ReadsBack(front)
    ensures ReadsBack(front + [name])
  {
    var s := " " + JoinWith(front, ',');
    JoinMore(front, name);
    NameIsTight(name);
    SplitField(s, ',', name);
    NonEmptyMore(SplitOn(s, ','), name);
  }

  lemma {:induction false} NamesReadBack(names: seq<string>)
    requires AreNames(names)
    ensures ReadsBack(names)
  {
    var n := |names| - 1;
    assert names == names[..n] + [names[n]];
    if n == 0 {
      assert names == [names[0]];
      OneReadsBack(names[0]);
    } else {
      NamesReadBack(names[..n]);
      MoreReadsBack(names[..n], names[n]);
    }
  }

  lemma {:induction false} JoinedNames(names: seq<string>)
    requires AreNames(names)
    ensures var s := JoinWith(names, ','); s != "" && IsPlain(s[|s| - 1]) && forall c :: c in s ==> IsPlain(c) || c == ','
  {
    if |names| > 1 { JoinedNames(names[..|names| - 1]); }
  }

  /** The marker line of some names is a marker, of exactly those names. */
  lemma MarkerIsRead(names: seq<string>)
    requires AreNames(names)
    ensures IsMarker(MarkerOf(names)) && MarkedNames(MarkerOf(names)) == names
  {
    var line := MarkerOf(names);
    JoinedNames(names);
    assert line[|line| - 1] == JoinWith(names, ',')[|JoinWith(names, ',')| - 1];
    TrimTight(line);
    assert line[|MARKER|..] == " " + JoinWith(names, ',');
    NamesReadBack(names);
  }

  predicate HasNoQuotes(s: string) {
    '"' !in s && '\'' !in s
  }

  lemma NoQuotesConcat(a: string, b: string)
    requires HasNoQuotes(a) && HasNoQuotes(b)
    ensures HasNoQuotes(a + b)
  {
  }

  lemma JoinedHasNoQuotes(names: seq<string>)
    requires AreNames(names)
    ensures HasNoQuotes(JoinWith(names, ','))
  {
    JoinedNames(names);
  }

  lemma MarkerIsQuiet(names: seq<string>)
    requires AreNames(names)
    ensures IsQuiet(LINES, MarkerOf(names)) && !IsFlag(MarkerOf(names))
  {
    JoinedHasNoQuotes(names);
    MarkerTextIsQuiet(JoinWith(names, ','));
  }

  lemma MarkerTextIsQuiet(rest: string)
    requires HasNoQuotes(rest)
    ensures IsQuiet(LINES, MARKER + (" " + rest)) && !IsFlag(MARKER + (" " + rest))
  {
    NoQuotesConcat(" ", rest);
    NoQuotesConcat(MARKER, " " + rest);
    CommentIsQuiet(MARKER + (" " + rest));
  }

  lemma CommentIsQuiet(line: string)
    requires line != "" && line[0] == '#' && HasNoQuotes(line)
    ensures IsQuiet(LINES, line) && !IsFlag(line)
  {
    NoQuotesStill(line);
    NotTable(line);
    assert StripComment(line, None) == "";
  }

  // ----- the flag -----

  lemma {:induction false} BeforeFound(a: string, c: char, b: string)
    requires c !in a
    ensures Before(a + [c] + b, c) == Some(a)
  {
    var s := a + [c] + b;
    if a != "" {
      BeforeFound(a[1..], c, b);
      assert s[1..] == a[1..] + [c] + b;
      assert a == [a[0]] + a[1..];
    }
  }

  lemma FlagLineIsPlain(key: string)
    requires IsPlainText(key)
    ensures var line := key + " = true"; '#' !in line && '"' !in line && '\'' !in line
    ensures '=' !in key + " " && '"' !in key
  {
    assert forall c :: c in key ==> IsPlain(c);
    assert forall c :: c in key + " " ==> c in key || c == ' ';
    assert forall c :: c in key + " = true" ==> c in key || c in " = true";
  }

  lemma TrimAfter(key: string)
    requires IsPlainText(key)
    ensures TrimQuotes(Trim(key + " ")) == key
  {
    assert (key + " ")[..|key|] == key;
    TrimTight(key);
    assert TrimLeft(key + " ") == key + " ";
    CleanPlain(key);
  }

  /** `key = true` assigns `key`. */
  lemma FlagIsRead(key: string)
    requires IsPlainText(key)
    ensures BareKey(key + " = true") == key
  {
    FlagLineIsPlain(key);
    StripNone(key + " = true");
    assert key + " = true" == (key + " ") + ['='] + " true";
    BeforeFound(key + " ", '=', " true");
    TrimAfter(key);
  }
}
