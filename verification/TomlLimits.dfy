/** Files on which configuring the same server twice does not give the same bytes: a multi-line string that does not close,
    and a feature line that opens one around a table line of the server. */
module TomlLimits {
  import opened JsonGrammar
  import opened TextLines
  import opened CodexToml
  import opened TomlEdits
  import opened TomlBlanks
  import opened TomlFits
  import opened TomlLines
  import opened TomlFile

  function Top(body: seq<string>): Section {
    Section("", "", body)
  }

  function Features(O: Own, body: seq<string>): Section {
    Section(O.featuresKey, O.headerOf(O.featuresKey), body)
  }

  function Table(O: Own, s: Server, body: seq<string>): Section {
    Section(O.serverKey(s.name), O.headerOf(O.serverKey(s.name)), body)
  }

  function Marker(O: Own, s: Server): string {
    O.markerOf(O.order({s.name}))
  }

  /** The lines of one configuration of a file of such lines. */
  function ConfiguredLines(L: LineRules, O: Own, lines: seq<string>, s: Server): seq<string>
    requires HasPreamble(O, ReadAll(L, lines + [""]).sections)
  {
    Flat(Normal(Configure(O, ReadAll(L, lines + [""]).sections, [s])))
  }

  /** Configuring the lines again gives other lines. */
  ghost predicate GoesOn(L: LineRules, O: Own, lines: seq<string>, s: Server) {
    && HasPreamble(O, ReadAll(L, lines + [""]).sections)
    && HasPreamble(O, ReadAll(L, ConfiguredLines(L, O, lines, s) + [""]).sections)
    && ConfiguredLines(L, O, ConfiguredLines(L, O, lines, s), s) != ConfiguredLines(L, O, lines, s)
  }

  ghost predicate IsExample(L: LineRules, O: Own, s: Server) {
    && IsOwn(O) && AreServers(O, [s]) && WritesWell(L, O, [s]) && IgnoresBlanks(O) && s.line != ""
    && IsStill(L, O.headerOf(O.featuresKey)) && IsStill(L, O.headerOf(O.serverKey(s.name)))
    && !O.isMarker(O.headerOf(O.serverKey(s.name))) && O.serverName("").None? && O.featuresKey != ""
    && IsQuiet(L, "")
  }

  lemma OneServer(O: Own, s: Server)
    ensures NamesOf([s]) == {s.name} && ServerSections(O, [s]) == [Table(O, s, [s.line])]
  {
    assert [s][0] == s;
  }

  // ----- an open string -----

  /** While a multi-line string is open, lines that do not close it join the last section. */
  lemma {:induction false} OpenTakesAll(L: LineRules, before: seq<string>, lines: seq<string>)
    requires ReadAll(L, before).open.Some? && forall i :: 0 <= i < |lines| ==> IsStill(L, lines[i])
    ensures var r := ReadAll(L, before);
            var n := |r.sections| - 1;
            ReadAll(L, before + lines)
            == CodexToml.Reading(r.sections[n := r.sections[n].(body := r.sections[n].body + lines)], r.open)
  {
    var r := ReadAll(L, before);
    var n := |r.sections| - 1;
    if lines == [] {
      assert before + lines == before && r.sections[n].body + lines == r.sections[n].body;
      assert r.sections[n := r.sections[n]] == r.sections;
    } else {
      var most, last := lines[..|lines| - 1], lines[|lines| - 1];
      OpenTakesAll(L, before, most);
      ReadMore(L, before + most, last);
      assert before + lines == before + most + [last];
      assert r.sections[n].body + lines == r.sections[n].body + most + [last];
    }
  }

  /** A preamble alone gets a features table, the server and, unless it is there, the marker. */
  lemma TopConfigures(L: LineRules, O: Own, s: Server, body: seq<string>)
    requires IsExample(L, O, s)
    requires First(body, O.isMarker) == |body| || (body != [] && body[0] == Marker(O, s))
    ensures HasPreamble(O, [Top(body)])
    ensures var more := if First(body, O.isMarker) == |body| then [Marker(O, s)] + body else body;
            Configure(O, [Top(body)], [s]) == [Top(more), Features(O, [O.flagLine]), Table(O, s, [s.line])]
  {
    var doc := [Top(body)];
    OneServer(O, s);
    DropClears(O, doc, SetOf(Managed(O, doc)) + {s.name});
    FeaturesIs(O, doc, 1);
    assert Flag(O, doc) == [Top(body), Features(O, [O.flagLine])];
    TopMarks(L, O, s, body);
  }

  lemma TopMarks(L: LineRules, O: Own, s: Server, body: seq<string>)
    requires IsExample(L, O, s)
    requires First(body, O.isMarker) == |body| || (body != [] && body[0] == Marker(O, s))
    ensures var more := if First(body, O.isMarker) == |body| then [Marker(O, s)] + body else body;
            Mark(O, [Top(body), Features(O, [O.flagLine])] + [Table(O, s, [s.line])], O.order({s.name}))
            == [Top(more), Features(O, [O.flagLine]), Table(O, s, [s.line])]
  {
    OneServer(O, s);
    var doc := [Top(body), Features(O, [O.flagLine]), Table(O, s, [s.line])];
    assert doc == [Top(body), Features(O, [O.flagLine])] + [Table(O, s, [s.line])];
    assert IsServer(O, [s][0]);
    FirstIs([O.flagLine], O.isMarker, 1);
    FirstIs([s.line], O.isMarker, 1);
    if First(body, O.isMarker) == |body| {
      MarkedIs(O, doc, 3);
    } else {
      FirstIs(body, O.isMarker, 0);
      MarkedIs(O, doc, 0);
      assert body[0 := Marker(O, s)] == body;
    }
  }

  /** The lines written after the preamble. */
  function Written(O: Own, s: Server): seq<string> {
    [O.headerOf(O.featuresKey), O.flagLine] + [O.headerOf(O.serverKey(s.name)), s.line]
  }

  lemma NormalOfThree(body: seq<string>, a: Section, b: Section)
    requires TrimEnd(a.body) == a.body && TrimEnd(b.body) == b.body
    ensures Normal([Top(body), a, b]) == [Top(TrimEnd(body)), a, b]
  {
  }

  lemma TablesAreWritten(L: LineRules, O: Own, s: Server)
    requires IsExample(L, O, s)
    ensures SectionLines(Features(O, [O.flagLine])) + SectionLines(Table(O, s, [s.line])) == Written(O, s)
    ensures TrimEnd([O.flagLine]) == [O.flagLine] && TrimEnd([s.line]) == [s.line]
  {
    assert IsTableOf(L, O, O.serverKey([s][0].name));
    assert O.flagLine != "";
  }

  lemma Grouped(a: seq<string>, b: seq<string>, c: seq<string>)
    ensures a + b + c == a + (b + c)
  {
  }

  lemma FlatOfTop(L: LineRules, O: Own, s: Server, body: seq<string>)
    requires IsExample(L, O, s)
    ensures Flat(Normal([Top(body), Features(O, [O.flagLine]), Table(O, s, [s.line])])) == TrimEnd(body) + Written(O, s)
  {
    var features, table := Features(O, [O.flagLine]), Table(O, s, [s.line]);
    TablesAreWritten(L, O, s);
    NormalOfThree(body, features, table);
    FlatOfThree(Top(TrimEnd(body)), features, table);
    Grouped(SectionLines(Top(TrimEnd(body))), SectionLines(features), SectionLines(table));
    assert SectionLines(Top(TrimEnd(body))) == TrimEnd(body);
  }

  lemma FlatOfTwo(a: Section, b: Section)
    ensures Flat([a, b]) == SectionLines(a) + SectionLines(b)
  {
    assert [a, b][..1] == [a] && [a][..0] == [];
    assert Flat([a]) == [] + SectionLines(a);
  }

  lemma FlatOfThree(a: Section, b: Section, c: Section)
    ensures Flat([a, b, c]) == SectionLines(a) + SectionLines(b) + SectionLines(c)
  {
    FlatOfTwo(a, b);
    assert [a, b, c][..2] == [a, b];
  }

  lemma TrimBlank(lines: seq<string>)
    requires lines != [] && lines[|lines| - 1] != ""
    ensures TrimEnd(lines + [""]) == lines
  {
    assert (lines + [""])[..|lines|] == lines;
  }

  /** A line that opens a multi-line string which never closes: the second run repeats what the first one wrote. */
  lemma UnclosedGrows(L: LineRules, O: Own, s: Server, line: string)
    requires IsExample(L, O, s) && L.header(line).None? && L.opens(line).Some? && !O.isMarker(line) && line != ""
    ensures HasPreamble(O, ReadAll(L, [line] + [""]).sections)
    ensures var once := ConfiguredLines(L, O, [line], s);
            && once == [Marker(O, s), line] + Written(O, s)
            && HasPreamble(O, ReadAll(L, once + [""]).sections)
            && ConfiguredLines(L, O, once, s) == once + Written(O, s)
  {
    UnclosedOnce(L, O, s, line);
    UnclosedReads(L, O, s, line);
    MarkedTop(L, O, s, [Marker(O, s), line] + Written(O, s));
  }

  lemma UnclosedGoesOn(L: LineRules, O: Own, s: Server, line: string)
    requires IsExample(L, O, s) && L.header(line).None? && L.opens(line).Some? && !O.isMarker(line) && line != ""
    ensures GoesOn(L, O, [line], s)
  {
    UnclosedGrows(L, O, s, line);
    assert |Written(O, s)| == 4;
  }

  /** A preamble that has it all, marker first, gets it all again. */
  lemma MarkedTop(L: LineRules, O: Own, s: Server, lines: seq<string>)
    requires IsExample(L, O, s) && lines != [] && lines[0] == Marker(O, s) && lines[|lines| - 1] != ""
    ensures HasPreamble(O, [Top(lines + [""])])
    ensures Flat(Normal(Configure(O, [Top(lines + [""])], [s]))) == lines + Written(O, s)
  {
    var body := lines + [""];
    assert body[0] == Marker(O, s);
    OneServer(O, s);
    FirstIs(body, O.isMarker, 0);
    TopConfigures(L, O, s, body);
    FlatOfTop(L, O, s, body);
    TrimBlank(lines);
  }

  lemma UnmarkedTop(L: LineRules, O: Own, s: Server, line: string)
    requires IsExample(L, O, s) && !O.isMarker(line) && line != ""
    ensures HasPreamble(O, [Top([line, ""])])
    ensures Flat(Normal(Configure(O, [Top([line, ""])], [s]))) == [Marker(O, s), line] + Written(O, s)
  {
    FirstIs([line, ""], O.isMarker, 2);
    TopConfigures(L, O, s, [line, ""]);
    FlatOfTop(L, O, s, [Marker(O, s)] + [line, ""]);
    assert [Marker(O, s)] + [line, ""] == [Marker(O, s), line] + [""];
    TrimBlank([Marker(O, s), line]);
  }

  lemma UnclosedOnce(L: LineRules, O: Own, s: Server, line: string)
    requires IsExample(L, O, s) && L.header(line).None? && L.opens(line).Some? && !O.isMarker(line) && line != ""
    ensures HasPreamble(O, ReadAll(L, [line] + [""]).sections)
    ensures ConfiguredLines(L, O, [line], s) == [Marker(O, s), line] + Written(O, s)
  {
    OneLineReads(L, line);
    UnmarkedTop(L, O, s, line);
  }

  lemma OneLineReads(L: LineRules, line: string)
    requires L.header(line).None? && L.opens(line).Some? && IsStill(L, "")
    ensures ReadAll(L, [line] + [""]).sections == [Top([line, ""])]
  {
    ReadMore(L, [], line);
    assert [] + [line] == [line];
    assert ReadAll(L, [line]) == CodexToml.Reading([Top([line])], L.opens(line));
    OpenTakesAll(L, [line], [""]);
    assert [line] + [""] == [line, ""];
  }

  lemma LineAfterMarker(L: LineRules, marker: string, line: string)
    requires IsQuiet(L, marker) && L.header(line).None? && L.opens(line).Some?
    ensures ReadAll(L, [marker, line]) == CodexToml.Reading([Top([marker, line])], L.opens(line))
  {
    ReadMore(L, [], marker);
    ReadMore(L, [marker], line);
    assert [] + [marker] == [marker] && [marker] + [line] == [marker, line];
  }

  lemma OpenFromTop(L: LineRules, marker: string, line: string, rest: seq<string>)
    requires IsQuiet(L, marker) && L.header(line).None? && L.opens(line).Some? && forall i :: 0 <= i < |rest| ==> IsStill(L, rest[i])
    ensures ReadAll(L, [marker, line] + rest).sections == [Top([marker, line] + rest)]
  {
    LineAfterMarker(L, marker, line);
    OpenTakesAll(L, [marker, line], rest);
  }

  lemma WrittenIsStill(L: LineRules, O: Own, s: Server)
    requires IsExample(L, O, s)
    ensures IsQuiet(L, Marker(O, s)) && forall i :: 0 <= i < |Written(O, s) + [""]| ==> IsStill(L, (Written(O, s) + [""])[i])
  {
    OneServer(O, s);
    assert IsQuiet(L, [s][0].line);
  }

  lemma UnclosedReads(L: LineRules, O: Own, s: Server, line: string)
    requires IsExample(L, O, s) && L.header(line).None? && L.opens(line).Some?
    ensures var once := [Marker(O, s), line] + Written(O, s); ReadAll(L, once + [""]).sections == [Top(once + [""])]
  {
    WrittenIsStill(L, O, s);
    OpenFromTop(L, Marker(O, s), line, Written(O, s) + [""]);
    assert [Marker(O, s), line] + (Written(O, s) + [""]) == [Marker(O, s), line] + Written(O, s) + [""];
  }

  // ----- a feature line that opens a string -----

  /** A feature line that opens a multi-line string around a table line of the server, and the line that closes it. */
  ghost predicate IsTrap(L: LineRules, O: Own, s: Server, flag: string, close: string) {
    && L.header(flag).None? && L.opens(flag).Some? && O.isFlag(flag) && !O.isMarker(flag)
    && L.header(close).None? && L.closes(close, L.opens(flag).value) && L.opens(close).Some? && !O.isMarker(close) && close != ""
  }

  function TrapLines(O: Own, s: Server, flag: string, close: string): seq<string> {
    [O.headerOf(O.featuresKey), flag] + [O.headerOf(O.serverKey(s.name)), close]
  }

  lemma TablesRead(L: LineRules, O: Own, s: Server, r: CodexToml.Reading)
    requires IsExample(L, O, s) && r.sections != [] && r.open.None?
    ensures ReadLine(L, r, O.headerOf(O.featuresKey)) == CodexToml.Reading(r.sections + [Features(O, [])], None)
    ensures ReadLine(L, r, O.headerOf(O.serverKey(s.name))) == CodexToml.Reading(r.sections + [Table(O, s, [])], None)
  {
    assert IsTableOf(L, O, O.serverKey([s][0].name));
  }

  lemma TrapReads(L: LineRules, O: Own, s: Server, flag: string, close: string)
    requires IsExample(L, O, s) && IsTrap(L, O, s, flag, close)
    ensures ReadAll(L, TrapLines(O, s, flag, close) + [""]).sections
            == [Top([]), Features(O, [flag, O.headerOf(O.serverKey(s.name)), close, ""])]
  {
    var head, table := O.headerOf(O.featuresKey), O.headerOf(O.serverKey(s.name));
    ReadMore(L, [], head);
    TablesRead(L, O, s, ReadAll(L, []));
    assert [] + [head] == [head] && [Top([])] + [Features(O, [])] == [Top([]), Features(O, [])];
    assert ReadAll(L, [head]) == CodexToml.Reading([Top([]), Features(O, [])], None);
    ReadMore(L, [head], flag);
    assert [head] + [flag] == [head, flag] && [] + [flag] == [flag];
    assert ReadAll(L, [head, flag]) == CodexToml.Reading([Top([]), Features(O, [flag])], L.opens(flag));
    TrapTail(L, O, s, flag, close);
  }

  lemma TrapTail(L: LineRules, O: Own, s: Server, flag: string, close: string)
    requires IsExample(L, O, s) && IsTrap(L, O, s, flag, close)
    requires ReadAll(L, [O.headerOf(O.featuresKey), flag]) == CodexToml.Reading([Top([]), Features(O, [flag])], L.opens(flag))
    ensures ReadAll(L, TrapLines(O, s, flag, close) + [""]).sections
            == [Top([]), Features(O, [flag, O.headerOf(O.serverKey(s.name)), close, ""])]
  {
    var head, table := O.headerOf(O.featuresKey), O.headerOf(O.serverKey(s.name));
    OpenTakesAll(L, [head, flag], [table]);
    ReadMore(L, [head, flag] + [table], close);
    ReadMore(L, [head, flag] + [table] + [close], "");
    assert [head, flag] + [table] + [close] + [""] == TrapLines(O, s, flag, close) + [""];
    assert [flag] + [table] + [close] + [""] == [flag, table, close, ""];
  }

  /** The document after one run. */
  function Sprung(O: Own, s: Server, close: string): seq<Section> {
    [Top([Marker(O, s)]), Features(O, [O.flagLine, O.headerOf(O.serverKey(s.name)), close, ""]), Table(O, s, [s.line])]
  }

  lemma TrapFlagged(L: LineRules, O: Own, s: Server, flag: string, close: string)
    requires IsExample(L, O, s) && IsTrap(L, O, s, flag, close)
    ensures var table := O.headerOf(O.serverKey(s.name));
            var doc := [Top([]), Features(O, [flag, table, close, ""])];
            && HasPreamble(O, doc) && UserPart(O, doc, [s]) == doc
            && Flag(O, doc) == [Top([]), Features(O, [O.flagLine, table, close, ""])]
  {
    var table := O.headerOf(O.serverKey(s.name));
    var body := [flag, table, close, ""];
    var doc := [Top([]), Features(O, body)];
    OneServer(O, s);
    FirstIs(body, O.isMarker, 4);
    MarkedIs(O, doc, 2);
    DropClears(O, doc, SetOf(Managed(O, doc)) + {s.name});
    FeaturesIs(O, doc, 1);
    FirstIs(body, O.isFlag, 0);
    assert body[0 := O.flagLine] == [O.flagLine, table, close, ""];
  }

  lemma TrapMarked(L: LineRules, O: Own, s: Server, close: string)
    requires IsExample(L, O, s) && !O.isMarker(close)
    ensures var flagged := [O.flagLine, O.headerOf(O.serverKey(s.name)), close, ""];
            Mark(O, [Top([]), Features(O, flagged)] + [Table(O, s, [s.line])], O.order({s.name})) == Sprung(O, s, close)
  {
    var flagged := [O.flagLine, O.headerOf(O.serverKey(s.name)), close, ""];
    var all := [Top([]), Features(O, flagged), Table(O, s, [s.line])];
    assert [Top([]), Features(O, flagged)] + [Table(O, s, [s.line])] == all;
    OneServer(O, s);
    assert IsServer(O, [s][0]);
    FirstIs(flagged, O.isMarker, 4);
    FirstIs([s.line], O.isMarker, 1);
    MarkedIs(O, all, 3);
    assert [Marker(O, s)] + [] == [Marker(O, s)];
  }

  lemma TrapOnce(L: LineRules, O: Own, s: Server, flag: string, close: string)
    requires IsExample(L, O, s) && IsTrap(L, O, s, flag, close)
    ensures var doc := [Top([]), Features(O, [flag, O.headerOf(O.serverKey(s.name)), close, ""])];
            HasPreamble(O, doc) && Configure(O, doc, [s]) == Sprung(O, s, close)
  {
    OneServer(O, s);
    TrapFlagged(L, O, s, flag, close);
    TrapMarked(L, O, s, close);
  }

  /** Its lines. */
  function SprungLines(O: Own, s: Server, close: string): seq<string> {
    [Marker(O, s)] + [O.headerOf(O.featuresKey), O.flagLine, O.headerOf(O.serverKey(s.name)), close]
    + [O.headerOf(O.serverKey(s.name)), s.line]
  }

  lemma TrapFlat(L: LineRules, O: Own, s: Server, close: string)
    requires IsExample(L, O, s) && close != ""
    ensures Flat(Normal(Sprung(O, s, close))) == SprungLines(O, s, close)
  {
    var table := O.headerOf(O.serverKey(s.name));
    OneServer(O, s);
    assert IsTableOf(L, O, O.serverKey([s][0].name));
    assert Marker(O, s) != "";
    var a, b, c := Top([Marker(O, s)]), Features(O, [O.flagLine, table, close]), Table(O, s, [s.line]);
    assert TrimEnd([O.flagLine, table, close, ""]) == [O.flagLine, table, close] by {
      assert [O.flagLine, table, close, ""][..3] == [O.flagLine, table, close];
    }
    assert Normal(Sprung(O, s, close)) == [a, b, c];
    FlatOfThree(a, b, c);
    assert SectionLines(b) == [O.headerOf(O.featuresKey), O.flagLine, table, close];
  }

  lemma SprungFront(L: LineRules, O: Own, s: Server)
    requires IsExample(L, O, s)
    ensures ReadAll(L, [Marker(O, s), O.headerOf(O.featuresKey), O.flagLine])
            == CodexToml.Reading([Top([Marker(O, s)]), Features(O, [O.flagLine])], None)
  {
    var marker, head := Marker(O, s), O.headerOf(O.featuresKey);
    OneServer(O, s);
    ReadMore(L, [], marker);
    assert [] + [marker] == [marker];
    assert ReadAll(L, [marker]) == CodexToml.Reading([Top([marker])], None);
    ReadMore(L, [marker], head);
    TablesRead(L, O, s, ReadAll(L, [marker]));
    assert [marker] + [head] == [marker, head] && [Top([marker])] + [Features(O, [])] == [Top([marker]), Features(O, [])];
    ReadMore(L, [marker, head], O.flagLine);
    assert [marker, head] + [O.flagLine] == [marker, head, O.flagLine] && [] + [O.flagLine] == [O.flagLine];
  }

  /** The first run turned the string's table line into a table; all that follows is in it. */
  lemma TrapAgain(L: LineRules, O: Own, s: Server, flag: string, close: string)
    requires IsExample(L, O, s) && IsTrap(L, O, s, flag, close)
    ensures ReadAll(L, SprungLines(O, s, close) + [""]).sections
            == [Top([Marker(O, s)]), Features(O, [O.flagLine]), Table(O, s, [close, O.headerOf(O.serverKey(s.name)), s.line, ""])]
  {
    var table := O.headerOf(O.serverKey(s.name));
    var before := [Marker(O, s), O.headerOf(O.featuresKey), O.flagLine];
    OneServer(O, s);
    assert IsQuiet(L, [s][0].line);
    SprungFront(L, O, s);
    ReadMore(L, before, table);
    TablesRead(L, O, s, ReadAll(L, before));
    ReadMore(L, before + [table], close);
    assert ReadAll(L, before + [table] + [close])
        == CodexToml.Reading([Top([Marker(O, s)]), Features(O, [O.flagLine]), Table(O, s, [close])], L.opens(close)) by {
      assert [] + [close] == [close];
    }
    OpenTakesAll(L, before + [table] + [close], [table, s.line, ""]);
    assert SprungLines(O, s, close) + [""] == before + [table] + [close] + [table, s.line, ""];
    assert [close] + [table, s.line, ""] == [close, table, s.line, ""];
  }

  /** The second run drops that table. */
  lemma TrapTwice(L: LineRules, O: Own, s: Server, body: seq<string>)
    requires IsExample(L, O, s)
    ensures var doc := [Top([Marker(O, s)]), Features(O, [O.flagLine])] + [Table(O, s, body)];
            && HasPreamble(O, doc)
            && Configure(O, doc, [s]) == [Top([Marker(O, s)]), Features(O, [O.flagLine])] + [Table(O, s, [s.line])]
  {
    var front := [Top([Marker(O, s)]), Features(O, [O.flagLine])];
    var doc := front + [Table(O, s, body)];
    var all := front + [Table(O, s, [s.line])];
    OneServer(O, s);
    assert IsServer(O, [s][0]);
    MarkedFirst(O, s, doc);
    MarkedFirst(O, s, all);
    assert SetOf(Managed(O, doc)) + {s.name} == {s.name};
    DropServers(O, front, [Table(O, s, body)], {s.name});
    FeaturesIs(O, front, 1);
    FirstIs([O.flagLine], O.isFlag, 0);
    FlaggedStays(O, front);
  }

  lemma MarkedFirst(O: Own, s: Server, doc: seq<Section>)
    requires AreServers(O, [s]) && doc != [] && doc[0] == Top([Marker(O, s)])
    ensures Managed(O, doc) == O.order({s.name}) && Mark(O, doc, O.order({s.name})) == doc
  {
    OneServer(O, s);
    FirstIs([Marker(O, s)], O.isMarker, 0);
    MarkedIs(O, doc, 0);
    MarkedStays(O, doc, O.order({s.name}));
  }

  lemma FirstRun(L: LineRules, O: Own, s: Server, flag: string, close: string)
    requires IsExample(L, O, s) && IsTrap(L, O, s, flag, close)
    ensures HasPreamble(O, ReadAll(L, TrapLines(O, s, flag, close) + [""]).sections)
    ensures ConfiguredLines(L, O, TrapLines(O, s, flag, close), s) == SprungLines(O, s, close)
  {
    TrapReads(L, O, s, flag, close);
    TrapOnce(L, O, s, flag, close);
    TrapFlat(L, O, s, close);
  }

  lemma SecondRun(L: LineRules, O: Own, s: Server, flag: string, close: string)
    requires IsExample(L, O, s) && IsTrap(L, O, s, flag, close)
    ensures HasPreamble(O, ReadAll(L, SprungLines(O, s, close) + [""]).sections)
    ensures |ConfiguredLines(L, O, SprungLines(O, s, close), s)| <= 5
  {
    TrapAgain(L, O, s, flag, close);
    var body := [close, O.headerOf(O.serverKey(s.name)), s.line, ""];
    var front := [Top([Marker(O, s)]), Features(O, [O.flagLine])];
    assert front + [Table(O, s, body)] == [Top([Marker(O, s)]), Features(O, [O.flagLine]), Table(O, s, body)];
    assert front + [Table(O, s, [s.line])] == [Top([Marker(O, s)]), Features(O, [O.flagLine]), Table(O, s, [s.line])];
    TrapTwice(L, O, s, body);
    FlatOfTop(L, O, s, [Marker(O, s)]);
    TrimEndOne(Marker(O, s));
  }

  lemma TrapGoesOn(L: LineRules, O: Own, s: Server, flag: string, close: string)
    requires IsExample(L, O, s) && IsTrap(L, O, s, flag, close)
    ensures GoesOn(L, O, TrapLines(O, s, flag, close), s)
  {
    FirstRun(L, O, s, flag, close);
    SecondRun(L, O, s, flag, close);
    assert |SprungLines(O, s, close)| == 7;
  }

  lemma TrimEndOne(line: string)
    ensures |TrimEnd([line])| <= 1
  {
    assert [line][..0] == [];
  }

  // ----- on files -----

  /** A server called "a". */
  function AServer(): Server {
    Server("a", "url = x")
  }

  lemma AServerIsGoverned()
    ensures AreGoverned([AServer()]) && AServer().line != ""
  {
    NoQuotesStill("url = x");
    assert [AServer()][0] == AServer();
  }

  lemma ExampleTables()
    ensures IsStill(LINES, HeaderOf(FEATURES)) && IsLine(HeaderOf(FEATURES)) && FEATURES != ""
    ensures IsStill(LINES, HeaderOf(ServerKey("a"))) && IsLine(HeaderOf(ServerKey("a")))
  {
    assert AllPlain(FEATURES);
    TableFits(FEATURES);
    ServerTable("a");
    TableFits(ServerKey("a"));
  }

  lemma IsAnExample(order: set<string> -> seq<string>)
    requires Lists(order)
    ensures IsExample(LINES, OwnLines(order), AServer())
  {
    AServerIsGoverned();
    OwnIsOwn(order);
    GovernedAreServers([AServer()], order);
    PlainWritesWell([AServer()], order);
    BlankIsQuiet();
    ExampleTables();
    NotMarker(HeaderOf(ServerKey(AServer().name)));
  }

  /** On a file of whole lines, configuring gives the file of the configured lines. */
  lemma FileOfLines(lines: seq<string>, order: set<string> -> seq<string>)
    requires AreLines(lines) && Lists(order)
    ensures HasPreamble(OwnLines(order), ReadAll(LINES, lines + [""]).sections)
    ensures var next := ConfiguredLines(LINES, OwnLines(order), lines, AServer());
            AreLines(next) && ConfigureFile(Unlines(lines), [AServer()], order) == Unlines(next)
  {
    var O := OwnLines(order);
    LinesOfRendered(lines);
    ReadsPreamble(O, Unlines(lines));
    BlankIsQuiet();
    ReadingSplits(LINES, lines + [""]);
    var doc := ReadAll(LINES, lines + [""]).sections;
    LinesConcat(lines, [""]);
    FlatHasLines(doc);
    AServerIsGoverned();
    ConfigureHasLines(doc, [AServer()], order);
    NormalHasLines(Configure(O, doc, [AServer()]));
    FlatHasLines(Normal(Configure(O, doc, [AServer()])));
  }

  lemma SameTextSameLines(a: seq<string>, b: seq<string>)
    requires AreLines(a) && AreLines(b) && Unlines(a) == Unlines(b)
    ensures a == b
  {
    SplitUnlines(a);
    SplitUnlines(b);
  }

  /** Text after which a multi-line string is open. */
  lemma {:induction false} QuotesOpen(line: string)
    requires HasNoQuotes(line)
    ensures Count(line + "\"\"\"", ThreeDouble) == 1 && Opens(line + "\"\"\"") == Some(ThreeDouble)
  {
    var all := line + "\"\"\"";
    if line == "" {
      assert all[..3] == TomlLines.Text(ThreeDouble) && all[3..] == "";
    } else {
      QuotesOpen(line[1..]);
      assert all[1..] == line[1..] + "\"\"\"";
      assert all[..3] != TomlLines.Text(ThreeDouble) by { assert all[..3][0] == line[0] && line[0] in line; }
    }
  }

  lemma UnclosedExample(line: string, order: set<string> -> seq<string>)
    requires LINES.header(line).None? && LINES.opens(line).Some? && !IsMarker(line) && line != "" && Lists(order)
    ensures GoesOn(LINES, OwnLines(order), [line], AServer())
  {
    IsAnExample(order);
    UnclosedGoesOn(LINES, OwnLines(order), AServer(), line);
  }

  /** A file whose multi-line string does not close: configuring twice is not configuring once. */
  lemma UnclosedChanges(order: set<string> -> seq<string>) returns (text: string)
    requires Lists(order)
    ensures text == Unlines(["x = \"\"\""])
    ensures ConfigureFile(ConfigureFile(text, [AServer()], order), [AServer()], order) != ConfigureFile(text, [AServer()], order)
  {
    var lines := UnclosedLines(order);
    text := Unlines(lines);
    TwoRuns(lines, order);
  }

  lemma UnclosedLines(order: set<string> -> seq<string>) returns (lines: seq<string>)
    requires Lists(order)
    ensures lines == ["x = \"\"\""] && AreLines(lines) && GoesOn(LINES, OwnLines(order), lines, AServer())
  {
    UnclosedLine();
    lines := ["x = \"\"\""];
    UnclosedExample(lines[0], order);
  }

  lemma UnclosedLine()
    ensures var line := "x = \"\"\"";
            LINES.header(line).None? && LINES.opens(line).Some? && !IsMarker(line) && line != "" && IsLine(line)
  {
    var line := "x = \"\"\"";
    assert line == "x = " + "\"\"\"";
    QuotesOpen("x = ");
    NotTable(line);
    NotMarker(line);
  }

  /** When the lines of the two runs differ, so do the files. */
  lemma TwoRuns(lines: seq<string>, order: set<string> -> seq<string>)
    requires AreLines(lines) && Lists(order) && GoesOn(LINES, OwnLines(order), lines, AServer())
    ensures var text := ConfigureFile(Unlines(lines), [AServer()], order); ConfigureFile(text, [AServer()], order) != text
  {
    FileOfLines(lines, order);
    var once := ConfiguredLines(LINES, OwnLines(order), lines, AServer());
    FileOfLines(once, order);
    var twice := ConfiguredLines(LINES, OwnLines(order), once, AServer());
    if Unlines(twice) == Unlines(once) { SameTextSameLines(twice, once); }
  }

  /** A file in which the feature line opens a string around the server's table line: the same. */
  lemma TrapChanges(order: set<string> -> seq<string>) returns (text: string)
    requires Lists(order)
    ensures text == Unlines(["[features]", "experimental_use_rmcp_client = \"\"\"", "[mcp_servers.a]", "\"\"\""])
    ensures ConfigureFile(ConfigureFile(text, [AServer()], order), [AServer()], order) != ConfigureFile(text, [AServer()], order)
  {
    var O := OwnLines(order);
    var flag, close := FLAG_KEY + " = " + "\"\"\"", "\"\"\"";
    var lines := TrapLines(O, AServer(), flag, close);
    text := Unlines(lines);
    TrapText(order);
    TrapIsTrap(order);
    IsAnExample(order);
    TrapGoesOn(LINES, O, AServer(), flag, close);
    TrapHasLines(order);
    TwoRuns(lines, order);
  }

  lemma TrapIsTrap(order: set<string> -> seq<string>)
    ensures IsTrap(LINES, OwnLines(order), AServer(), FLAG_KEY + " = " + "\"\"\"", "\"\"\"")
  {
    var flag, close := FLAG_KEY + " = " + "\"\"\"", "\"\"\"";
    QuotesOpen(FLAG_KEY + " = ");
    QuotesOpen("");
    assert "" + "\"\"\"" == close;
    NotTable(flag);
    NotTable(close);
    NotMarker(flag);
    NotMarker(close);
    TrapIsFlag();
  }

  lemma TrapIsFlag()
    ensures IsFlag(FLAG_KEY + " = " + "\"\"\"")
  {
    var rest := "\"\"\"";
    assert AllPlain(FLAG_KEY);
    StripPrefix(FLAG_KEY + " = ", rest);
    var stripped := StripComment(rest, None);
    assert FLAG_KEY + " = " + stripped == (FLAG_KEY + " ") + ['='] + (" " + stripped);
    FlagLineIsPlain(FLAG_KEY);
    BeforeFound(FLAG_KEY + " ", '=', " " + stripped);
    TrimAfter(FLAG_KEY);
  }

  lemma {:induction false} StripPrefix(a: string, b: string)
    requires '#' !in a && '"' !in a && '\'' !in a
    ensures StripComment(a + b, None) == a + StripComment(b, None)
  {
    if a == "" {
      assert a + b == b;
    } else {
      StripPrefix(a[1..], b);
      assert (a + b)[1..] == a[1..] + b;
      assert [a[0]] + (a[1..] + StripComment(b, None)) == a + StripComment(b, None);
    }
  }

  lemma TrapHasLines(order: set<string> -> seq<string>)
    ensures AreLines(TrapLines(OwnLines(order), AServer(), FLAG_KEY + " = " + "\"\"\"", "\"\"\""))
  {
    ExampleTables();
    TrapFlagIsLine();
  }

  lemma TrapFlagIsLine()
    ensures IsLine(FLAG_KEY + " = " + "\"\"\"")
  {
    assert AllPlain(FLAG_KEY);
    PlainIsLine(FLAG_KEY);
    ConcatIsLine(FLAG_KEY, " = ");
    ConcatIsLine(FLAG_KEY + " = ", "\"\"\"");
  }

  lemma TrapText(order: set<string> -> seq<string>)
    ensures TrapLines(OwnLines(order), AServer(), FLAG_KEY + " = " + "\"\"\"", "\"\"\"")
            == ["[features]", "experimental_use_rmcp_client = \"\"\"", "[mcp_servers.a]", "\"\"\""]
  {
    assert HeaderOf(FEATURES) == "[features]";
    assert ServerKey("a") == "mcp_servers.a";
    assert HeaderOf("mcp_servers.a") == "[mcp_servers.a]";
    assert FLAG_KEY + " = " + "\"\"\"" == "experimental_use_rmcp_client = \"\"\"";
  }
}
