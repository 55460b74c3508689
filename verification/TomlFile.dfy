/** The editor on the text of the configuration file: what configuring twice, and configuring and removing, leave in it. */
module TomlFile {
  import opened JsonGrammar
  import opened TextLines
  import opened CodexToml
  import opened TomlEdits
  import opened TomlBlanks
  import opened TomlFits
  import opened TomlLines

  // ----- the file -----

  /** CR LF counts as LF. */
  function WithoutCr(text: string): string {
    if |text| < 2 then text
    else if text[0] == '\r' && text[1] == '\n' then ['\n'] + WithoutCr(text[2..])
    else [text[0]] + WithoutCr(text[1..])
  }

  function FileLines(text: string): seq<string> {
    Split(text).complete + [Split(text).rest]
  }

  function ReadFile(text: string): CodexToml.Reading {
    ReadAll(LINES, FileLines(WithoutCr(text)))
  }

  function Render(doc: seq<Section>): string {
    Unlines(Flat(Normal(doc)))
  }

  lemma BlankIsQuiet()
    ensures LINES.header("").None? && IsQuiet(LINES, "")
  {
    NoQuotesStill("");
  }

  lemma ReadsPreamble(O: Own, text: string)
    requires O.serverName == ServerName
    ensures HasPreamble(O, ReadFile(text).sections)
  {
    BlankIsQuiet();
    ReadingSplits(LINES, FileLines(WithoutCr(text)));
    SplitHasPreamble(ReadFile(text).sections, ReadFile(text).open);
  }

  lemma {:induction false} SplitHasPreamble(doc: seq<Section>, open: Option<Delimiter>)
    requires IsSplit(LINES, doc, open)
    ensures doc[0].header == "" && doc[0].key == ""
  {
    if |doc| > 1 { SplitHasPreamble(doc[..|doc| - 1], None); }
  }

  function ConfigureFile(text: string, servers: seq<Server>, order: set<string> -> seq<string>): string {
    var O := OwnLines(order);
    ReadsPreamble(O, text);
    Render(Configure(O, ReadFile(text).sections, servers))
  }

  /** A file without a marker is not written. */
  function RemoveFromFile(text: string, order: set<string> -> seq<string>): string {
    var O := OwnLines(order);
    ReadsPreamble(O, text);
    var doc := ReadFile(text).sections;
    if Managed(O, doc) == [] then text else Render(Uninstall(O, doc))
  }

  // ----- what is asked of the file and the servers -----

  predicate IsLine(line: string) {
    '\n' !in line && '\r' !in line
  }

  /** LF line ends, multi-line strings that close, and no triple quotes in the lines the editor replaces. */
  ghost predicate IsTidy(text: string, O: Own) {
    '\r' !in text && ReadFile(text).open.None? && OwnLinesStill(LINES, O, ReadFile(text).sections)
  }

  /** Servers with plain names and one-line addresses without triple quotes. */
  ghost predicate ArePlain(servers: seq<Server>) {
    forall i :: 0 <= i < |servers| ==>
      && IsServerName(servers[i].name) && "url = " <= servers[i].line
      && IsStill(LINES, servers[i].line) && IsLine(servers[i].line)
  }

  ghost predicate AreGoverned(servers: seq<Server>) {
    servers != [] && ArePlain(servers)
  }

  ghost predicate Lists(order: set<string> -> seq<string>) {
    forall names :: SetOf(order(names)) == names
  }

  lemma AssignmentFits(key: string)
    requires IsPlainText(key)
    ensures var line := key + " = true"; BareKey(line) == key && !IsMarker(line) && IsQuiet(LINES, line) && IsLine(line)
  {
    var line := key + " = true";
    FlagIsRead(key);
    FlagLineIsPlain(key);
    assert line[0] == key[0];
    NotMarker(line);
    NoQuotesStill(line);
    NotTable(line);
    PlainIsLine(key);
    assert forall c :: c in line ==> c in key || c in " = true";
  }

  lemma PlainIsLine(s: string)
    requires AllPlain(s)
    ensures IsLine(s) && '"' !in s && '\'' !in s
  {
  }

  lemma FlagLineFits()
    ensures var line := FLAG_KEY + " = true"; IsFlag(line) && !IsMarker(line) && IsQuiet(LINES, line) && IsLine(line)
  {
    assert AllPlain(FLAG_KEY);
    AssignmentFits(FLAG_KEY);
  }

  lemma TableFits(key: string)
    requires IsPlainText(key)
    ensures TableKey(HeaderOf(key)) == Some(key) && IsStill(LINES, HeaderOf(key)) && IsLine(HeaderOf(key))
  {
    PlainTable(key);
    PlainIsLine(key);
    assert forall c :: c in HeaderOf(key) ==> c == '[' || c == ']' || c in key;
    NoQuotesStill(HeaderOf(key));
  }

  lemma OwnIsOwn(order: set<string> -> seq<string>)
    requires Lists(order)
    ensures IsOwn(OwnLines(order)) && IgnoresBlanks(OwnLines(order))
  {
    FlagLineFits();
    NotMarker("");
    assert BareKey("") == "";
    assert FEATURES[0] != SERVER_PREFIX[0];
  }

  lemma NoNames(names: seq<string>)
    ensures SetOf(names) == {} ==> names == []
  {
    if names != [] { assert names[0] in SetOf(names); }
  }

  lemma OrderedNames(servers: seq<Server>, order: set<string> -> seq<string>)
    requires ArePlain(servers) && Lists(order)
    ensures var names := order(NamesOf(servers)); if servers == [] then names == [] else AreNames(names)
  {
    var names := order(NamesOf(servers));
    assert SetOf(names) == NamesOf(servers);
    NoNames(names);
    if servers != [] {
      assert servers[0].name in NamesOf(servers);
      assert servers[0].name in SetOf(names);
    }
    forall i | 0 <= i < |names| ensures IsServerName(names[i]) {
      assert names[i] in SetOf(names);
    }
  }

  lemma ServerTable(name: string)
    requires IsServerName(name)
    ensures IsPlainText(ServerKey(name)) && ServerName(ServerKey(name)) == Some(name)
  {
    assert AllPlain(SERVER_PREFIX);
  }

  lemma GovernedIsServer(server: Server, order: set<string> -> seq<string>)
    requires IsServerName(server.name) && "url = " <= server.line && IsStill(LINES, server.line)
    ensures IsServer(OwnLines(order), server) && IsTableOf(LINES, OwnLines(order), ServerKey(server.name)) && IsQuiet(LINES, server.line)
  {
    ServerTable(server.name);
    TableFits(ServerKey(server.name));
    assert server.line[0] == 'u';
    NotMarker(server.line);
    NotTable(server.line);
  }

  lemma MarkerTextIsLine(rest: string)
    requires IsLine(rest)
    ensures IsLine(MARKER + (" " + rest))
  {
    ConcatIsLine(" ", rest);
    ConcatIsLine(MARKER, " " + rest);
  }

  lemma AnyMarkerIsQuiet(names: seq<string>)
    requires names == [] || AreNames(names)
    ensures IsQuiet(LINES, MarkerOf(names)) && IsLine(MarkerOf(names))
  {
    if names == [] {
      MarkerTextIsQuiet("");
      MarkerTextIsLine("");
    } else {
      MarkerIsQuiet(names);
      MarkerIsLine(names);
    }
  }

  lemma PlainWritesWell(servers: seq<Server>, order: set<string> -> seq<string>)
    requires ArePlain(servers) && Lists(order)
    ensures WritesWell(LINES, OwnLines(order), servers)
  {
    FlagLineFits();
    assert AllPlain(FEATURES);
    TableFits(FEATURES);
    OrderedNames(servers, order);
    AnyMarkerIsQuiet(order(NamesOf(servers)));
    forall i | 0 <= i < |servers|
      ensures IsTableOf(LINES, OwnLines(order), ServerKey(servers[i].name)) && IsQuiet(LINES, servers[i].line)
    {
      GovernedIsServer(servers[i], order);
    }
  }

  lemma GovernedAreServers(servers: seq<Server>, order: set<string> -> seq<string>)
    requires AreGoverned(servers) && Lists(order)
    ensures AreServers(OwnLines(order), servers)
  {
    OrderedNames(servers, order);
    MarkerIsRead(order(NamesOf(servers)));
    MarkerIsQuiet(order(NamesOf(servers)));
    forall i | 0 <= i < |servers| ensures IsServer(OwnLines(order), servers[i]) {
      GovernedIsServer(servers[i], order);
    }
  }

  // ----- lines stay lines -----

  predicate AreLines(lines: seq<string>) {
    forall i :: 0 <= i < |lines| ==> IsLine(lines[i])
  }

  predicate HasLines(doc: seq<Section>) {
    forall i :: 0 <= i < |doc| ==> IsLine(doc[i].header) && AreLines(doc[i].body)
  }

  lemma LinesConcat(a: seq<string>, b: seq<string>)
    ensures AreLines(a + b) <==> AreLines(a) && AreLines(b)
  {
    assert (a + b)[..|a|] == a && (a + b)[|a|..] == b;
  }

  lemma SectionHasLines(s: Section)
    ensures AreLines(SectionLines(s)) <==> IsLine(s.header) && AreLines(s.body)
  {
    LinesConcat(if s.header == "" then [] else [s.header], s.body);
    if s.header != "" { assert AreLines([s.header]) <==> IsLine([s.header][0]); }
  }

  lemma {:induction false} FlatHasLines(doc: seq<Section>)
    ensures HasLines(doc) <==> AreLines(Flat(doc))
  {
    if doc != [] {
      var n := |doc| - 1;
      FlatHasLines(doc[..n]);
      LinesConcat(Flat(doc[..n]), SectionLines(doc[n]));
      SectionHasLines(doc[n]);
      assert doc == doc[..n] + [doc[n]];
    }
  }

  lemma {:induction false} DropHasLines(O: Own, doc: seq<Section>, names: set<string>)
    requires HasLines(doc)
    ensures HasLines(Drop(O, doc, names))
  {
    if doc != [] { DropHasLines(O, doc[..|doc| - 1], names); }
  }

  lemma FlagHasLines(O: Own, doc: seq<Section>)
    requires HasLines(doc) && IsLine(O.flagLine) && IsLine(O.headerOf(O.featuresKey))
    ensures HasLines(Flag(O, doc))
  {
  }

  lemma MarkHasLines(O: Own, doc: seq<Section>, names: seq<string>)
    requires doc != [] && HasLines(doc) && IsLine(O.markerOf(names))
    ensures HasLines(Mark(O, doc, names))
  {
  }

  lemma NormalHasLines(doc: seq<Section>)
    requires HasLines(doc)
    ensures HasLines(Normal(doc))
  {
    forall i | 0 <= i < |doc| ensures AreLines(TrimEnd(doc[i].body)) { TrimIsPadded(doc[i].body); }
  }

  lemma MarkerIsLine(names: seq<string>)
    requires AreNames(names)
    ensures IsLine(MarkerOf(names))
  {
    JoinedNames(names);
    MarkerTextIsLine(JoinWith(names, ','));
  }

  lemma ConcatIsLine(a: string, b: string)
    requires IsLine(a) && IsLine(b)
    ensures IsLine(a + b)
  {
  }

  lemma ServersHaveLines(O: Own, servers: seq<Server>)
    requires ArePlain(servers) && O.serverKey == ServerKey && O.headerOf == HeaderOf
    ensures HasLines(ServerSections(O, servers))
  {
    forall i | 0 <= i < |servers| ensures IsLine(ServerSection(O, servers[i]).header) {
      ServerTable(servers[i].name);
      TableFits(ServerKey(servers[i].name));
    }
  }

  lemma EditsHaveLines(O: Own, doc: seq<Section>, servers: seq<Server>)
    requires HasPreamble(O, doc) && HasLines(doc) && HasLines(ServerSections(O, servers))
    requires IsLine(O.flagLine) && IsLine(O.headerOf(O.featuresKey)) && IsLine(O.markerOf(O.order(NamesOf(servers))))
    ensures HasLines(Configure(O, doc, servers))
  {
    var kept := UserPart(O, doc, servers);
    UserPartIsClear(O, doc, servers);
    DropHasLines(O, doc, SetOf(Managed(O, doc)) + NamesOf(servers));
    FlagHasLines(O, kept);
    var flagged := if servers == [] then kept else Flag(O, kept);
    MarkHasLines(O, flagged + ServerSections(O, servers), O.order(NamesOf(servers)));
  }

  lemma ConfigureHasLines(doc: seq<Section>, servers: seq<Server>, order: set<string> -> seq<string>)
    requires HasPreamble(OwnLines(order), doc) && HasLines(doc) && ArePlain(servers) && Lists(order)
    ensures HasLines(Configure(OwnLines(order), doc, servers))
  {
    FlagLineFits();
    assert AllPlain(FEATURES);
    TableFits(FEATURES);
    ServersHaveLines(OwnLines(order), servers);
    OrderedNames(servers, order);
    AnyMarkerIsQuiet(order(NamesOf(servers)));
    EditsHaveLines(OwnLines(order), doc, servers);
  }

  lemma UninstallHasLines(O: Own, doc: seq<Section>)
    requires HasPreamble(O, doc) && HasLines(doc)
    ensures HasLines(Uninstall(O, doc))
  {
    if Managed(O, doc) != [] {
      DropKeepsFirst(O, doc, SetOf(Managed(O, doc)));
      DropHasLines(O, doc, SetOf(Managed(O, doc)));
      UnmarkHasLines(O, Drop(O, doc, SetOf(Managed(O, doc))));
    }
  }

  lemma UnmarkHasLines(O: Own, doc: seq<Section>)
    requires doc != [] && HasLines(doc)
    ensures HasLines(Mark(O, doc, []))
  {
  }

  // ----- reading back what was rendered -----

  lemma {:induction false} NoCrStays(text: string)
    requires '\r' !in text
    ensures WithoutCr(text) == text
  {
    if |text| >= 2 {
      NoCrStays(text[1..]);
      assert text == [text[0]] + text[1..];
    }
  }

  lemma {:induction false} UnlinesNoCr(lines: seq<string>)
    requires AreLines(lines)
    ensures '\r' !in Unlines(lines)
  {
    if lines != [] { UnlinesNoCr(lines[..|lines| - 1]); }
  }

  lemma FileHasLines(text: string)
    requires '\r' !in text
    ensures AreLines(FileLines(text))
  {
    SplitCuts(text);
    var lines := FileLines(text);
    SplitNoCr(text);
  }

  lemma {:induction false} SplitNoCr(text: string)
    requires '\r' !in text
    ensures '\r' !in Split(text).rest && forall i :: 0 <= i < |Split(text).complete| ==> '\r' !in Split(text).complete[i]
  {
    if text != "" { SplitNoCr(text[..|text| - 1]); }
  }

  lemma LinesOfRendered(lines: seq<string>)
    requires AreLines(lines)
    ensures FileLines(WithoutCr(Unlines(lines))) == lines + [""]
  {
    UnlinesNoCr(lines);
    NoCrStays(Unlines(lines));
    SplitUnlines(lines);
  }

  lemma BlankPads(doc: seq<Section>)
    requires doc != []
    ensures Pads(doc[|doc| - 1 := WithLine(doc[|doc| - 1], "")], doc)
  {
  }

  /** A rendered document reads back as it was, with one blank line more. */
  lemma RenderedReads(doc: seq<Section>)
    requires AllFit(LINES, doc) && HasLines(doc)
    ensures Pads(ReadFile(Render(doc)).sections, Normal(doc)) && ReadFile(Render(doc)).open.None?
  {
    var normal := Normal(doc);
    BlankIsQuiet();
    NormalFits(LINES, doc);
    SplitFits(LINES, normal);
    NormalHasLines(doc);
    FlatHasLines(normal);
    LinesOfRendered(Flat(normal));
    FlatReads(LINES, normal, None);
    ReadMore(LINES, Flat(normal), "");
    BlankPads(normal);
  }

  // ----- tidy files -----

  /** The sections of a tidy file. */
  lemma TidyReads(text: string, order: set<string> -> seq<string>)
    requires IsTidy(text, OwnLines(order))
    ensures var doc := ReadFile(text).sections;
            && AllFit(LINES, doc) && HasLines(doc) && HasPreamble(OwnLines(order), doc)
            && OwnLinesStill(LINES, OwnLines(order), doc)
  {
    NoCrStays(text);
    BlankIsQuiet();
    ReadingSplits(LINES, FileLines(text));
    SplitFits(LINES, ReadFile(text).sections);
    FileHasLines(text);
    FlatHasLines(ReadFile(text).sections);
    ReadsPreamble(OwnLines(order), text);
  }

  lemma PaddedIsStill(L: LineRules, O: Own, longer: seq<Section>, doc: seq<Section>)
    requires Pads(longer, doc) && OwnLinesStill(L, O, doc) && IsStill(L, "")
    ensures OwnLinesStill(L, O, longer)
  {
    forall i | 0 <= i < |doc| ensures BodyStill(L, O, longer[i].body) {
      var more, body := longer[i].body, doc[i].body;
      assert forall j :: |body| <= j < |more| ==> more[j] == more[|body|..][j - |body|];
    }
  }

  lemma TrimmedIsStill(L: LineRules, O: Own, doc: seq<Section>)
    requires OwnLinesStill(L, O, doc)
    ensures OwnLinesStill(L, O, Normal(doc))
  {
    forall i | 0 <= i < |doc| ensures BodyStill(L, O, TrimEnd(doc[i].body)) { TrimIsPadded(doc[i].body); }
  }

  /** What is rendered is tidy. */
  lemma RenderedIsTidy(doc: seq<Section>, O: Own)
    requires AllFit(LINES, doc) && HasLines(doc) && OwnLinesStill(LINES, O, doc)
    ensures IsTidy(Render(doc), O)
  {
    RenderedReads(doc);
    BlankIsQuiet();
    TrimmedIsStill(LINES, O, doc);
    PaddedIsStill(LINES, O, ReadFile(Render(doc)).sections, Normal(doc));
    NormalHasLines(doc);
    FlatHasLines(Normal(doc));
    UnlinesNoCr(Flat(Normal(doc)));
  }

  /** The sections after configuring a tidy file. */
  lemma ConfiguredFits(text: string, servers: seq<Server>, order: set<string> -> seq<string>)
    requires IsTidy(text, OwnLines(order)) && ArePlain(servers) && Lists(order)
    ensures HasPreamble(OwnLines(order), ReadFile(text).sections)
    ensures var e := Configure(OwnLines(order), ReadFile(text).sections, servers);
            AllFit(LINES, e) && HasLines(e) && OwnLinesStill(LINES, OwnLines(order), e)
  {
    TidyReads(text, order);
    PlainWritesWell(servers, order);
    ConfigureFits(LINES, OwnLines(order), ReadFile(text).sections, servers);
    ConfigureHasLines(ReadFile(text).sections, servers, order);
  }

  lemma ConfiguringStaysTidy(text: string, servers: seq<Server>, order: set<string> -> seq<string>)
    requires IsTidy(text, OwnLines(order)) && ArePlain(servers) && Lists(order)
    ensures IsTidy(ConfigureFile(text, servers, order), OwnLines(order))
  {
    ConfiguredFits(text, servers, order);
    RenderedIsTidy(Configure(OwnLines(order), ReadFile(text).sections, servers), OwnLines(order));
  }

  lemma RemovingStaysTidy(text: string, order: set<string> -> seq<string>)
    requires IsTidy(text, OwnLines(order))
    ensures IsTidy(RemoveFromFile(text, order), OwnLines(order))
  {
    var O := OwnLines(order);
    TidyReads(text, order);
    UninstallFits(LINES, O, ReadFile(text).sections);
    UninstallHasLines(O, ReadFile(text).sections);
    if Managed(O, ReadFile(text).sections) != [] { RenderedIsTidy(Uninstall(O, ReadFile(text).sections), O); }
  }

  datatype Edit = Configuring(servers: seq<Server>) | Removing

  /** The file after some edits, the last one last. */
  function AfterEdits(text: string, edits: seq<Edit>, order: set<string> -> seq<string>): string {
    if edits == [] then text
    else
      var before := AfterEdits(text, edits[..|edits| - 1], order);
      match edits[|edits| - 1]
      case Configuring(servers) => ConfigureFile(before, servers, order)
      case Removing => RemoveFromFile(before, order)
  }

  ghost predicate ArePlainEdits(edits: seq<Edit>) {
    forall i :: 0 <= i < |edits| && edits[i].Configuring? ==> ArePlain(edits[i].servers)
  }

  /** No sequence of edits takes a tidy file out of the tidy ones. */
  lemma {:induction false} EditsStayTidy(text: string, edits: seq<Edit>, order: set<string> -> seq<string>)
    requires IsTidy(text, OwnLines(order)) && ArePlainEdits(edits) && Lists(order)
    ensures IsTidy(AfterEdits(text, edits, order), OwnLines(order))
  {
    if edits != [] {
      var before := AfterEdits(text, edits[..|edits| - 1], order);
      EditsStayTidy(text, edits[..|edits| - 1], order);
      match edits[|edits| - 1]
      case Configuring(servers) => ConfiguringStaysTidy(before, servers, order);
      case Removing => RemovingStaysTidy(before, order);
    }
  }

  // ----- the results -----

  /** Reading, editing and rendering what an edit rendered is the edit of its sections. */
  lemma ReconfiguredRenders(e: seq<Section>, servers: seq<Server>, order: set<string> -> seq<string>)
    requires AllFit(LINES, e) && HasLines(e) && HasPreamble(OwnLines(order), e) && Lists(order)
    ensures ConfigureFile(Render(e), servers, order) == Render(Configure(OwnLines(order), e, servers))
  {
    var O := OwnLines(order);
    var again := ReadFile(Render(e)).sections;
    OwnIsOwn(order);
    RenderedReads(e);
    ReadsPreamble(O, Render(e));
    ConfigurePads(O, again, Normal(e), servers);
    PadsNormal(Configure(O, again, servers), Configure(O, Normal(e), servers));
    NormalPads(e);
    ConfigurePads(O, e, Normal(e), servers);
    PadsNormal(Configure(O, e, servers), Configure(O, Normal(e), servers));
  }

  /** Configuring the same servers twice gives the same bytes as once. */
  lemma ConfiguringTwiceIsOnce(text: string, servers: seq<Server>, order: set<string> -> seq<string>)
    requires IsTidy(text, OwnLines(order)) && AreGoverned(servers) && Lists(order)
    ensures ConfigureFile(ConfigureFile(text, servers, order), servers, order) == ConfigureFile(text, servers, order)
  {
    var O := OwnLines(order);
    ConfiguredFits(text, servers, order);
    OwnIsOwn(order);
    GovernedAreServers(servers, order);
    ConfigureTwice(O, ReadFile(text).sections, servers);
    ReconfiguredRenders(Configure(O, ReadFile(text).sections, servers), servers, order);
  }

  /** With no server left, it gives the same bytes exactly when the user's part of the file has at most one marker line. */
  lemma NoServersTwice(text: string, order: set<string> -> seq<string>)
    requires IsTidy(text, OwnLines(order)) && Lists(order)
    ensures HasPreamble(OwnLines(order), ReadFile(text).sections)
    ensures ConfigureFile(ConfigureFile(text, [], order), [], order) == ConfigureFile(text, [], order)
            <==> Markers(OwnLines(order), UserPart(OwnLines(order), ReadFile(text).sections, [])) <= 1
  {
    var O := OwnLines(order);
    var doc := ReadFile(text).sections;
    ConfiguredFits(text, [], order);
    OrderedNames([], order);
    assert NamesOf([]) == {};
    var e := Configure(O, doc, []);
    EmptyTwice(O, doc);
    ReconfiguredRenders(e, [], order);
    EmptyIs(O, doc);
    UnmarkCounts(O, UserPart(O, doc, []));
    EmptyAgain(O, e);
    if Markers(O, e) > 0 {
      PlainWritesWell([], order);
      ConfigureFits(LINES, O, e, []);
      ConfigureHasLines(e, [], order);
      RenderedMarkers(e, order);
      RenderedMarkers(Configure(O, e, []), order);
    }
  }

  /** Rendering keeps the marker lines. */
  lemma RenderedMarkers(doc: seq<Section>, order: set<string> -> seq<string>)
    requires AllFit(LINES, doc) && HasLines(doc) && Lists(order)
    ensures Markers(OwnLines(order), ReadFile(Render(doc)).sections) == Markers(OwnLines(order), doc)
  {
    OwnIsOwn(order);
    RenderedReads(doc);
    NormalPads(doc);
    MarkersPads(OwnLines(order), doc, Normal(doc));
    MarkersPads(OwnLines(order), ReadFile(Render(doc)).sections, Normal(doc));
  }

  /** Configuring servers and removing them leaves the rendering of sections that keep the user's, of every other name,
      in order and line for line, but for the marker, the feature flag and blank lines; at most a features table is new. */
  lemma RemovingRestores(text: string, servers: seq<Server>, order: set<string> -> seq<string>) returns (doc: seq<Section>)
    requires IsTidy(text, OwnLines(order)) && AreGoverned(servers) && Lists(order)
    ensures RemoveFromFile(ConfigureFile(text, servers, order), order) == Render(doc)
    ensures IsRestored(OwnLines(order), UserPart(OwnLines(order), ReadFile(text).sections, servers), doc)
  {
    var O := OwnLines(order);
    ConfiguredFits(text, servers, order);
    OwnIsOwn(order);
    GovernedAreServers(servers, order);
    var e := Configure(O, ReadFile(text).sections, servers);
    doc := Uninstall(O, e);
    UninstallRestores(O, ReadFile(text).sections, servers);
    ConfiguredIs(O, ReadFile(text).sections, servers);
    OrderedNames(servers, order);
    RemovedRenders(e, order);
  }

  lemma RemovedRenders(e: seq<Section>, order: set<string> -> seq<string>)
    requires AllFit(LINES, e) && HasLines(e) && HasPreamble(OwnLines(order), e) && Lists(order)
    requires Managed(OwnLines(order), e) != []
    ensures RemoveFromFile(Render(e), order) == Render(Uninstall(OwnLines(order), e))
  {
    var O := OwnLines(order);
    var again := ReadFile(Render(e)).sections;
    OwnIsOwn(order);
    RenderedReads(e);
    ReadsPreamble(O, Render(e));
    NormalPads(e);
    MarkedPads(O, again, Normal(e));
    MarkedPads(O, e, Normal(e));
    UninstallPads(O, again, Normal(e));
    PadsNormal(Uninstall(O, again), Uninstall(O, Normal(e)));
    UninstallPads(O, e, Normal(e));
    PadsNormal(Uninstall(O, e), Uninstall(O, Normal(e)));
  }

  /** After any sequence of edits, both results hold. */
  lemma AfterAnyEdits(text: string, edits: seq<Edit>, servers: seq<Server>, order: set<string> -> seq<string>) returns (doc: seq<Section>)
    requires IsTidy(text, OwnLines(order)) && ArePlainEdits(edits) && AreGoverned(servers) && Lists(order)
    ensures var now := AfterEdits(text, edits, order);
            var configured := ConfigureFile(now, servers, order);
            && ConfigureFile(configured, servers, order) == configured
            && RemoveFromFile(configured, order) == Render(doc)
            && IsRestored(OwnLines(order), UserPart(OwnLines(order), ReadFile(now).sections, servers), doc)
  {
    EditsStayTidy(text, edits, order);
    ConfiguringTwiceIsOnce(AfterEdits(text, edits, order), servers, order);
    doc := RemovingRestores(AfterEdits(text, edits, order), servers, order);
  }

  // ----- two markers -----

  lemma TwoMarkersAreTidy(order: set<string> -> seq<string>)
    requires Lists(order)
    ensures var doc := [Section("", "", [MarkerOf(["a"]), MarkerOf(["b"])])];
            AllFit(LINES, doc) && HasLines(doc) && OwnLinesStill(LINES, OwnLines(order), doc)
  {
    assert AreNames(["a"]) && AreNames(["b"]);
    AnyMarkerIsQuiet(["a"]);
    AnyMarkerIsQuiet(["b"]);
    QuietPreamble([MarkerOf(["a"]), MarkerOf(["b"])]);
  }

  lemma TwoMarkersCount(order: set<string> -> seq<string>)
    ensures Markers(OwnLines(order), [Section("", "", [MarkerOf(["a"]), MarkerOf(["b"])])]) == 2
  {
    assert AreNames(["a"]) && AreNames(["b"]);
    MarkerIsRead(["a"]);
    MarkerIsRead(["b"]);
    TwoOfTwo(OwnLines(order), MarkerOf(["a"]), MarkerOf(["b"]));
  }

  lemma TwoOfTwo(O: Own, a: string, b: string)
    requires O.isMarker(a) && O.isMarker(b)
    ensures Markers(O, [Section("", "", [a, b])]) == 2
  {
    assert [a, b][..1] == [a] && [a][..0] == [];
    assert BodyMarkers(O, [a]) == 1;
    assert BodyMarkers(O, [a, b]) == BodyMarkers(O, [a, b][..1]) + 1;
    assert [Section("", "", [a, b])][..0] == [];
  }

  /** With no server left, a second marker line in the file makes the second run change it. */
  lemma TwoMarkersChange(order: set<string> -> seq<string>) returns (text: string)
    requires Lists(order)
    ensures text == MarkerOf(["a"]) + "\n" + MarkerOf(["b"]) + "\n"
    ensures ConfigureFile(ConfigureFile(text, [], order), [], order) != ConfigureFile(text, [], order)
  {
    var doc := [Section("", "", [MarkerOf(["a"]), MarkerOf(["b"])])];
    TwoMarkersAreTidy(order);
    TwoMarkersCount(order);
    text := Render(doc);
    TwoLines(doc, MarkerOf(["a"]), MarkerOf(["b"]));
    RenderedIsTidy(doc, OwnLines(order));
    RenderedReads(doc);
    ReadsPreamble(OwnLines(order), text);
    OneSectionStays(OwnLines(order), ReadFile(text).sections);
    RenderedMarkers(doc, order);
    NoServersTwice(text, order);
  }

  lemma QuietPreamble(lines: seq<string>)
    requires |lines| == 2 && forall i :: 0 <= i < |lines| ==> IsQuiet(LINES, lines[i])
    ensures AllFit(LINES, [Section("", "", lines)])
  {
    StillScans(LINES, None, lines[0]);
    BodyMore(LINES, None, [lines[0]], lines[1]);
    assert lines == [lines[0]] + [lines[1]];
  }

  lemma TwoLines(doc: seq<Section>, a: string, b: string)
    requires doc == [Section("", "", [a, b])] && b != ""
    ensures Render(doc) == a + "\n" + b + "\n"
  {
    assert doc[..0] == [] && Flat(doc[..0]) == [];
    assert Flat(doc) == [a, b] && Normal(doc) == doc;
    UnlinesMore([], a);
    UnlinesMore([a], b);
    assert [a, b] == [a] + [b] && Unlines([]) + a + "\n" == a + "\n";
  }

  /** A preamble alone is all user's. */
  lemma OneSectionStays(O: Own, doc: seq<Section>)
    requires HasPreamble(O, doc) && |doc| == 1
    ensures UserPart(O, doc, []) == doc
  {
    DropKeepsFirst(O, doc, SetOf(Managed(O, doc)) + NamesOf([]));
    assert Drop(O, doc[..0], SetOf(Managed(O, doc)) + NamesOf([])) == [];
    assert doc == [doc[0]];
  }
}
