/** The editor's document object, changed in place, and its two drivers. */
module TomlEditor {
  import opened JsonGrammar
  import opened TextLines
  import opened CodexToml
  import opened TomlEdits
  import opened TomlBlanks
  import opened TomlLines
  import opened TomlFile

  /** Text without the line feeds at its end. */
  function TrimNewlines(text: string): string {
    if text != "" && text[|text| - 1] == '\n' then TrimNewlines(text[..|text| - 1]) else text
  }

  /** The text up to the last line that is not blank, with its line feed. */
  function Ended(text: string): string {
    var t := TrimNewlines(text);
    if t == "" then "" else t + "\n"
  }

  lemma {:induction false} EndedLines(lines: seq<string>)
    requires AreLines(lines)
    ensures Ended(Unlines(lines)) == Unlines(TrimEnd(lines))
  {
    if lines != [] {
      var front, last := lines[..|lines| - 1], lines[|lines| - 1];
      var text := Unlines(front) + last;
      assert Unlines(lines)[..|text|] == text;
      if last == "" {
        assert text == Unlines(front);
        EndedLines(front);
      } else {
        assert last[|last| - 1] in last;
        assert TrimNewlines(text) == text;
      }
    }
  }

  /** Blank lines before a table are those at the end of the section above it. */
  lemma {:induction false} TrimAfter(lines: seq<string>, s: Section)
    requires s.header != "" || lines == []
    ensures TrimEnd(lines + SectionLines(s)) == lines + SectionLines(Trimmed(s))
    decreases |s.body|
  {
    var all := lines + SectionLines(s);
    if s.body != [] && s.body[|s.body| - 1] == "" {
      var t := s.(body := s.body[..|s.body| - 1]);
      assert all[..|all| - 1] == lines + SectionLines(t);
      TrimAfter(lines, t);
    } else if s.body == [] && s.header != "" {
      assert all[|all| - 1] == s.header;
    }
  }

  lemma OneTaken(lines: seq<string>, i: nat)
    requires i < |lines|
    ensures lines[..i + 1] == lines[..i] + [lines[i]]
  {
  }

  class Document {
    const O: Own
    var sections: seq<Section>

    constructor (order: set<string> -> seq<string>)
      ensures O == OwnLines(order) && sections == [PREAMBLE]
    {
      O := OwnLines(order);
      sections := [PREAMBLE];
    }

    method AddLine(line: string)
      requires sections != []
      modifies this
      ensures sections == old(sections)[|old(sections)| - 1 := WithLine(old(sections)[|old(sections)| - 1], line)]
    {
      var n := |sections| - 1;
      sections := sections[n := sections[n].(body := sections[n].body + [line])];
    }

    method TakeLine(line: string, open: Option<Delimiter>) returns (next: Option<Delimiter>)
      requires sections != []
      modifies this
      ensures CodexToml.Reading(sections, next) == ReadLine(LINES, CodexToml.Reading(old(sections), open), line)
    {
      if open.Some? {
        AddLine(line);
        return if Count(line, open.value) > 0 then None else open;
      }
      var key := TableKey(line);
      if key.Some? {
        sections := sections + [Section(key.value, line, [])];
      } else {
        AddLine(line);
      }
      next := Opens(line);
    }

    /** Splits the lines of the file into sections. */
    method Read(lines: seq<string>)
      requires sections == [PREAMBLE]
      modifies this
      ensures sections == ReadAll(LINES, lines).sections
    {
      var open: Option<Delimiter> := None;
      for i := 0 to |lines|
        invariant ReadAll(LINES, lines[..i]) == CodexToml.Reading(sections, open)
      {
        OneTaken(lines, i);
        ReadMore(LINES, lines[..i], lines[i]);
        open := TakeLine(lines[i], open);
      }
      assert lines[..|lines|] == lines;
    }

    method RemoveServerSections(names: set<string>)
      modifies this
      ensures sections == Drop(O, old(sections), names)
    {
      var kept: seq<Section> := [];
      for i := 0 to |sections|
        invariant sections == old(sections) && kept == Drop(O, sections[..i], names)
      {
        assert sections[..i + 1][..i] == sections[..i];
        if !IsServerOf(O, sections[i], names) { kept := kept + [sections[i]]; }
      }
      assert sections[..|sections|] == sections;
      sections := kept;
    }

    /** Edits the first features table in place, or adds one. */
    method SetFeatureFlag()
      modifies this
      ensures sections == Flag(O, old(sections))
    {
      for k := 0 to |sections|
        invariant sections == old(sections) && forall j :: 0 <= j < k ==> sections[j].key != O.featuresKey
      {
        if sections[k].key == O.featuresKey {
          FeaturesIs(O, sections, k);
          var body := sections[k].body;
          for i := 0 to |body|
            invariant sections == old(sections) && forall j :: 0 <= j < i ==> !O.isFlag(body[j])
          {
            if O.isFlag(body[i]) {
              FirstIs(body, O.isFlag, i);
              sections := sections[k := sections[k].(body := body[i := O.flagLine])];
              return;
            }
          }
          FirstIs(body, O.isFlag, |body|);
          sections := sections[k := sections[k].(body := [O.flagLine] + body)];
          return;
        }
      }
      FeaturesIs(O, sections, |sections|);
      sections := sections + [Section(O.featuresKey, O.headerOf(O.featuresKey), [O.flagLine])];
    }

    method AppendServers(servers: seq<Server>)
      modifies this
      ensures sections == old(sections) + ServerSections(O, servers)
    {
      for i := 0 to |servers|
        invariant sections == old(sections) + ServerSections(O, servers[..i])
      {
        sections := sections + [ServerSection(O, servers[i])];
        assert ServerSections(O, servers[..i + 1]) == ServerSections(O, servers[..i]) + [ServerSection(O, servers[i])];
      }
      assert servers[..|servers|] == servers;
    }

    /** Where the marker is: its section and line, or the number of sections when there is none. */
    method FindMarker() returns (k: nat, i: nat)
      ensures k == FirstMarked(O, sections)
      ensures k < |sections| ==> i == First(sections[k].body, O.isMarker)
    {
      k, i := 0, 0;
      while k < |sections|
        invariant k <= |sections| && forall j :: 0 <= j < k ==> !IsMarked(O, sections[j])
      {
        var body := sections[k].body;
        i := 0;
        while i < |body|
          invariant i <= |body| && forall j :: 0 <= j < i ==> !O.isMarker(body[j])
        {
          if O.isMarker(body[i]) {
            FirstIs(body, O.isMarker, i);
            MarkedIs(O, sections, k);
            return;
          }
          i := i + 1;
        }
        FirstIs(body, O.isMarker, |body|);
        k := k + 1;
      }
      MarkedIs(O, sections, k);
    }

    method ManagedNames() returns (names: seq<string>)
      ensures names == Managed(O, sections)
    {
      var k, i := FindMarker();
      names := if k < |sections| then O.markedNames(sections[k].body[i]) else [];
    }

    /** Rewrites or drops the marker in place, or puts it first. */
    method SetManagedNames(names: seq<string>)
      requires sections != []
      modifies this
      ensures sections == Mark(O, old(sections), names)
    {
      var k, i := FindMarker();
      if k < |sections| {
        var body := sections[k].body;
        sections := sections[k := sections[k].(body := if names == [] then body[..i] + body[i + 1..] else body[i := O.markerOf(names)])];
      } else if names != [] {
        sections := sections[0 := sections[0].(body := [O.markerOf(names)] + sections[0].body)];
      }
    }

    /** Drops the sections to be rewritten and those managed before, and adds the servers with flag and marker. */
    method Configure(servers: seq<Server>)
      requires HasPreamble(O, sections)
      modifies this
      ensures sections == TomlEdits.Configure(O, old(sections), servers)
    {
      var governed := NamesOf(servers);
      var managed := ManagedNames();
      DropKeepsFirst(O, sections, SetOf(managed) + governed);
      RemoveServerSections(SetOf(managed) + governed);
      if servers != [] { SetFeatureFlag(); }
      AppendServers(servers);
      SetManagedNames(O.order(governed));
    }

    /** Drops the managed sections and the marker; `changed` says whether there were any. */
    method RemoveManaged() returns (changed: bool)
      requires HasPreamble(O, sections)
      modifies this
      ensures sections == Uninstall(O, old(sections)) && (changed <==> Managed(O, old(sections)) != [])
    {
      var managed := ManagedNames();
      if managed == [] { return false; }
      DropKeepsFirst(O, sections, SetOf(managed));
      RemoveServerSections(SetOf(managed));
      SetManagedNames([]);
      changed := true;
    }

    method WriteSection(out: string, s: Section) returns (r: string)
      ensures r == out + Unlines(SectionLines(s))
    {
      r := out;
      ghost var written: seq<string> := [];
      if s.header != "" {
        r := r + s.header + "\n";
        written := [s.header];
        OneLineMore(out, [], s.header);
      }
      for j := 0 to |s.body|
        invariant r == out + Unlines(written + s.body[..j])
      {
        OneLineMore(out, written + s.body[..j], s.body[j]);
        LineTaken(written, s.body, j);
        r := r + s.body[j] + "\n";
      }
      assert written + s.body[..|s.body|] == SectionLines(s);
    }

    method RenderOne(out: string, s: Section, ghost done: seq<string>) returns (more: string)
      requires AreLines(done) && out == Unlines(done) && (s.header != "" || done == [])
      ensures more == Unlines(TrimEnd(done) + SectionLines(s))
    {
      EndedLines(done);
      var ended := if s.header != "" then Ended(out) else out;
      more := WriteSection(ended, s);
      UnlinesConcat(TrimEnd(done), SectionLines(s));
    }

    /** Blank lines are dropped before each table and at the end; none is added. */
    method Render() returns (out: string)
      requires sections != [] && HasLines(sections)
      requires forall i :: 0 <= i < |sections| ==> (sections[i].header == "" <==> i == 0)
      ensures out == TomlFile.Render(sections)
    {
      out := "";
      ghost var done: seq<string> := [];
      for k := 0 to |sections|
        invariant IsRendered(sections[..k], done, out) && (k == 0 ==> done == [])
      {
        assert sections[..k + 1] == sections[..k] + [sections[k]];
        RenderSection(sections[..k], sections[k], done);
        out := RenderOne(out, sections[k], done);
        done := TrimEnd(done) + SectionLines(sections[k]);
      }
      assert sections[..|sections|] == sections;
      EndedLines(done);
      out := Ended(out);
    }
  }

  /** Written so far: the text of lines that, without blank ones at the end, are the rendered sections. */
  ghost predicate IsRendered(doc: seq<Section>, done: seq<string>, out: string) {
    AreLines(done) && out == Unlines(done) && TrimEnd(done) == Flat(Normal(doc))
  }

  lemma OneLineMore(out: string, lines: seq<string>, line: string)
    ensures out + Unlines(lines) + line + "\n" == out + Unlines(lines + [line])
  {
    UnlinesMore(lines, line);
  }

  lemma LineTaken(written: seq<string>, body: seq<string>, j: nat)
    requires j < |body|
    ensures written + body[..j + 1] == written + body[..j] + [body[j]]
  {
  }

  lemma {:induction false} UnlinesConcat(a: seq<string>, b: seq<string>)
    ensures Unlines(a + b) == Unlines(a) + Unlines(b)
  {
    if b == [] {
      assert a + b == a;
    } else {
      UnlinesConcat(a, b[..|b| - 1]);
      assert (a + b)[..|a + b| - 1] == a + b[..|b| - 1];
    }
  }

  lemma RenderSection(doc: seq<Section>, s: Section, done: seq<string>)
    requires AreLines(done) && HasLines([s]) && TrimEnd(done) == Flat(Normal(doc)) && (s.header != "" || done == [])
    ensures AreLines(TrimEnd(done) + SectionLines(s))
    ensures TrimEnd(TrimEnd(done) + SectionLines(s)) == Flat(Normal(doc + [s]))
  {
    TrimIsPadded(done);
    assert [s][0] == s;
    SectionHasLines(s);
    LinesConcat(TrimEnd(done), SectionLines(s));
    TrimAfter(TrimEnd(done), s);
    assert (doc + [s])[..|doc|] == doc;
    FlatMore(Normal(doc), Trimmed(s));
  }

  // ----- the drivers on a file -----

  predicate HasHeads(doc: seq<Section>) {
    forall i :: 0 <= i < |doc| ==> (doc[i].header == "" <==> i == 0)
  }

  lemma {:induction false} SplitHasHeads(L: LineRules, doc: seq<Section>, open: Option<Delimiter>)
    requires IsSplit(L, doc, open)
    ensures HasHeads(doc)
  {
    var n := |doc| - 1;
    if n > 0 {
      SplitHasHeads(L, doc[..n], None);
      assert forall i :: 0 <= i < n ==> doc[..n][i] == doc[i];
    }
  }

  lemma {:induction false} DropHasHeads(O: Own, doc: seq<Section>, names: set<string>)
    requires HasPreamble(O, doc) && HasHeads(doc)
    ensures HasHeads(Drop(O, doc, names))
  {
    if |doc| > 1 {
      DropHasHeads(O, doc[..|doc| - 1], names);
      DropKeepsFirst(O, doc[..|doc| - 1], names);
    } else {
      assert Drop(O, doc[..0], names) == [];
    }
  }

  lemma ConfiguredHasHeads(O: Own, doc: seq<Section>, servers: seq<Server>)
    requires HasPreamble(O, doc) && HasHeads(doc) && O.headerOf == HeaderOf
    ensures HasHeads(TomlEdits.Configure(O, doc, servers))
  {
    UserPartIsClear(O, doc, servers);
    DropHasHeads(O, doc, SetOf(Managed(O, doc)) + NamesOf(servers));
    var kept := UserPart(O, doc, servers);
    var flagged := if servers == [] then kept else Flag(O, kept);
    assert HasHeads(flagged);
    assert HasHeads(flagged + ServerSections(O, servers));
  }

  lemma ReadHasLines(text: string)
    requires '\r' !in text
    ensures HasLines(ReadFile(text).sections) && HasHeads(ReadFile(text).sections)
  {
    NoCrStays(text);
    BlankIsQuiet();
    ReadingSplits(LINES, FileLines(text));
    SplitHasHeads(LINES, ReadFile(text).sections, ReadFile(text).open);
    FileHasLines(text);
    FlatHasLines(ReadFile(text).sections);
  }

  lemma ConfiguredRenders(doc: seq<Section>, servers: seq<Server>, order: set<string> -> seq<string>)
    requires HasPreamble(OwnLines(order), doc) && HasLines(doc) && HasHeads(doc) && ArePlain(servers) && Lists(order)
    ensures var e := TomlEdits.Configure(OwnLines(order), doc, servers); e != [] && HasLines(e) && HasHeads(e)
  {
    ConfiguredHasHeads(OwnLines(order), doc, servers);
    ConfigureHasLines(doc, servers, order);
    ConfiguredIsSome(OwnLines(order), doc, servers);
  }

  lemma ConfiguredIsSome(O: Own, doc: seq<Section>, servers: seq<Server>)
    requires HasPreamble(O, doc)
    ensures TomlEdits.Configure(O, doc, servers) != []
  {
    UserPartIsClear(O, doc, servers);
  }

  lemma UnmarkedHasHeads(O: Own, doc: seq<Section>)
    requires doc != [] && HasHeads(doc)
    ensures HasHeads(Mark(O, doc, [])) && Mark(O, doc, []) != []
  {
  }

  lemma RemovedHasHeads(O: Own, doc: seq<Section>)
    requires HasPreamble(O, doc) && HasHeads(doc)
    ensures Uninstall(O, doc) != [] && HasHeads(Uninstall(O, doc))
  {
    if Managed(O, doc) != [] {
      var stale := SetOf(Managed(O, doc));
      DropHasHeads(O, doc, stale);
      DropKeepsFirst(O, doc, stale);
      UnmarkedHasHeads(O, Drop(O, doc, stale));
    }
  }

  lemma FileReads(text: string, order: set<string> -> seq<string>)
    requires '\r' !in text
    ensures var doc := ReadFile(text).sections; HasPreamble(OwnLines(order), doc) && HasLines(doc) && HasHeads(doc)
  {
    ReadsPreamble(OwnLines(order), text);
    ReadHasLines(text);
  }

  method ReadDocument(text: string, order: set<string> -> seq<string>) returns (doc: Document)
    ensures fresh(doc) && doc.O == OwnLines(order) && doc.sections == ReadFile(text).sections
  {
    doc := new Document(order);
    doc.Read(FileLines(WithoutCr(text)));
  }

  /** Reads the file, edits its sections and renders them. */
  method ConfigureServers(text: string, servers: seq<Server>, order: set<string> -> seq<string>) returns (out: string)
    requires '\r' !in text && ArePlain(servers) && Lists(order)
    ensures out == ConfigureFile(text, servers, order)
  {
    var doc := ReadDocument(text, order);
    FileReads(text, order);
    ConfiguredRenders(doc.sections, servers, order);
    doc.Configure(servers);
    out := doc.Render();
  }

  /** A file without a marker stays as it is. */
  method RemoveServers(text: string, order: set<string> -> seq<string>) returns (changed: bool, out: string)
    requires '\r' !in text
    ensures out == RemoveFromFile(text, order)
    ensures !changed ==> out == text
  {
    var doc := ReadDocument(text, order);
    FileReads(text, order);
    RemovedHasHeads(doc.O, doc.sections);
    UninstallHasLines(doc.O, doc.sections);
    changed := doc.RemoveManaged();
    if !changed { return false, text; }
    out := doc.Render();
  }
}
