/** What the edited file holds, read back from its bytes: every server's own address, the feature flag, the marker,
    and the user's tables. */
module TomlContents {
  import opened JsonGrammar
  import opened CodexToml
  import opened TomlEdits
  import opened TomlBlanks
  import opened TomlFits
  import opened TomlLines
  import opened TomlFile

  // ----- what a file may hold -----

  predicate IsOnlyLine(body: seq<string>, line: string) {
    body != [] && body[0] == line && forall j :: 0 < j < |body| ==> body[j] == ""
  }

  /** The section at `k` is the only table of this key, and this is its only line that is not blank. */
  predicate IsOneTable(doc: seq<Section>, k: nat, key: string, line: string) {
    && k < |doc| && doc[k].key == key && doc[k].header == "[" + key + "]" && IsOnlyLine(doc[k].body, line)
    && forall j :: 0 <= j < |doc| && j != k ==> doc[j].key != key
  }

  /** Line `i` of the section at `k` is the first assignment of the flag in the first features table, and turns it on. */
  predicate TurnsOn(doc: seq<Section>, k: nat, i: nat) {
    && k < |doc| && i < |doc[k].body|
    && doc[k].key == "features" && (forall j :: 0 <= j < k ==> doc[j].key != "features")
    && doc[k].body[i] == "experimental_use_rmcp_client = true"
    && forall j :: 0 <= j < i ==> BareKey(doc[k].body[j]) != "experimental_use_rmcp_client"
  }

  /** Line `i` of the section at `k` is the first marker, and it names these servers. */
  predicate Marks(doc: seq<Section>, k: nat, i: nat, names: seq<string>) {
    && k < |doc| && i < |doc[k].body|
    && doc[k].body[i] == "# keydris-managed-mcp-servers: " + JoinWith(names, ',')
    && MarkedNames(doc[k].body[i]) == names
    && (forall j :: 0 <= j < i ==> !IsMarker(doc[k].body[j]))
    && forall j, l :: 0 <= j < k && 0 <= l < |doc[j].body| ==> !IsMarker(doc[j].body[l])
  }

  /** The sections that are not the table of one of these servers, in order. */
  function Others(doc: seq<Section>, names: set<string>): seq<Section> {
    if doc == [] then []
    else
      var last := doc[|doc| - 1];
      Others(doc[..|doc| - 1], names) + if exists name :: name in names && last.key == "mcp_servers." + name then [] else [last]
  }

  // ----- the dropped sections -----

  lemma IsServerTable(O: Own, s: Section, names: set<string>)
    requires O.serverName == ServerName
    ensures IsServerOf(O, s, names) <==> exists name :: name in names && s.key == "mcp_servers." + name
  {
    if IsServerOf(O, s, names) {
      var name := ServerName(s.key).value;
      assert s.key == SERVER_PREFIX + name;
    } else {
      forall name | name in names ensures s.key != "mcp_servers." + name {
        assert (SERVER_PREFIX + name)[|SERVER_PREFIX|..] == name;
      }
    }
  }

  lemma {:induction false} DropIsOthers(O: Own, doc: seq<Section>, names: set<string>)
    requires O.serverName == ServerName
    ensures Drop(O, doc, names) == Others(doc, names)
  {
    if doc != [] {
      DropIsOthers(O, doc[..|doc| - 1], names);
      IsServerTable(O, doc[|doc| - 1], names);
    }
  }

  // ----- the contents through rendering -----

  lemma OnlyLinePads(longer: seq<string>, line: string)
    requires line != "" && IsPadded(longer, TrimEnd([line]))
    ensures IsOnlyLine(longer, line)
  {
    assert forall j :: 0 < j < |longer| ==> longer[j] == longer[1..][j - 1];
  }

  lemma FlaggedPads(O: Own, longer: seq<Section>, doc: seq<Section>)
    requires Pads(longer, doc) && IgnoresBlanks(O)
    ensures IsFlagged(O, longer) <==> IsFlagged(O, doc)
  {
    var k := FirstFeatures(O, doc);
    FeaturesIs(O, longer, k);
    if k < |doc| { FirstPadded(longer[k].body, doc[k].body, O.isFlag); }
  }

  lemma MarkedWithPads(O: Own, longer: seq<Section>, doc: seq<Section>, names: seq<string>)
    requires Pads(longer, doc) && IgnoresBlanks(O)
    ensures IsMarkedWith(O, longer, names) <==> IsMarkedWith(O, doc, names)
  {
    MarkedPads(O, longer, doc);
  }

  /** A rendered document keeps its flag, its marker and its sections. */
  lemma RenderedKeeps(doc: seq<Section>, order: set<string> -> seq<string>, names: seq<string>)
    requires AllFit(LINES, doc) && HasLines(doc) && Lists(order)
    ensures var again := ReadFile(Render(doc)).sections;
            && Pads(again, Normal(doc))
            && (IsFlagged(OwnLines(order), doc) ==> IsFlagged(OwnLines(order), again))
            && (IsMarkedWith(OwnLines(order), doc, names) ==> IsMarkedWith(OwnLines(order), again, names))
  {
    var O := OwnLines(order);
    OwnIsOwn(order);
    RenderedReads(doc);
    NormalPads(doc);
    FlaggedPads(O, doc, Normal(doc));
    FlaggedPads(O, ReadFile(Render(doc)).sections, Normal(doc));
    MarkedWithPads(O, doc, Normal(doc), names);
    MarkedWithPads(O, ReadFile(Render(doc)).sections, Normal(doc), names);
  }

  lemma FlaggedTurnsOn(doc: seq<Section>, order: set<string> -> seq<string>) returns (k: nat, i: nat)
    requires IsFlagged(OwnLines(order), doc)
    ensures TurnsOn(doc, k, i)
  {
    var O := OwnLines(order);
    k := FirstFeatures(O, doc);
    i := First(doc[k].body, O.isFlag);
    assert O.flagLine == "experimental_use_rmcp_client = true";
  }

  lemma MarkedMarks(doc: seq<Section>, order: set<string> -> seq<string>, names: seq<string>) returns (k: nat, i: nat)
    requires IsMarkedWith(OwnLines(order), doc, names) && AreNames(names)
    ensures Marks(doc, k, i, names)
  {
    var O := OwnLines(order);
    k := FirstMarked(O, doc);
    i := First(doc[k].body, O.isMarker);
    MarkerIsRead(names);
    MarkerText(names);
    forall j, l | 0 <= j < k && 0 <= l < |doc[j].body| ensures !IsMarker(doc[j].body[l]) {
      assert !IsMarked(O, doc[j]);
    }
  }

  lemma MarkerText(names: seq<string>)
    ensures MarkerOf(names) == "# keydris-managed-mcp-servers: " + JoinWith(names, ',')
  {
    assert MARKER + (" " + JoinWith(names, ',')) == MARKER + " " + JoinWith(names, ',');
    assert MARKER + " " == "# keydris-managed-mcp-servers: ";
  }

  predicate HaveDistinctNames(servers: seq<Server>) {
    forall i, j :: 0 <= i < j < |servers| ==> servers[i].name != servers[j].name
  }

  /** No other section of a document that ends with the servers' tables has the key of server `i`. */
  lemma KeyStandsOnce(O: Own, front: seq<Section>, servers: seq<Server>, i: nat, j: nat)
    requires AreServers(O, servers) && HasNone(O, front, NamesOf(servers)) && HaveDistinctNames(servers)
    requires i < |servers| && j < |front| + |servers| && j != |front| + i
    ensures (front + ServerSections(O, servers))[j].key != O.serverKey(servers[i].name)
  {
    assert IsServer(O, servers[i]) && servers[i].name in NamesOf(servers);
    if j < |front| {
      assert !IsServerOf(O, front[j], NamesOf(servers));
    } else {
      assert IsServer(O, servers[j - |front|]);
    }
  }

  lemma PadsAt(again: seq<Section>, doc: seq<Section>, k: nat)
    requires Pads(again, Normal(doc)) && k < |doc|
    ensures |again| == |doc| && again[k].key == doc[k].key && again[k].header == doc[k].header
    ensures IsPadded(again[k].body, TrimEnd(doc[k].body))
  {
    assert Normal(doc)[k] == Trimmed(doc[k]);
  }

  predicate HaveSameKeys(again: seq<Section>, doc: seq<Section>) {
    |again| == |doc| && forall j :: 0 <= j < |doc| ==> again[j].key == doc[j].key
  }

  lemma PadsHaveSameKeys(again: seq<Section>, doc: seq<Section>)
    requires Pads(again, Normal(doc))
    ensures HaveSameKeys(again, doc)
  {
    forall j | 0 <= j < |doc| ensures again[j].key == doc[j].key { PadsAt(again, doc, j); }
  }

  lemma ServerAt(O: Own, front: seq<Section>, servers: seq<Server>, i: nat)
    requires i < |servers|
    ensures (front + ServerSections(O, servers))[|front| + i] == ServerSection(O, servers[i])
  {
  }

  /** The table of one server, read back. */
  predicate StandsAs(s: Section, key: string, line: string) {
    s.key == key && s.header == HeaderOf(key) && IsPadded(s.body, TrimEnd([line]))
  }

  lemma TableStands(again: seq<Section>, k: nat, key: string, line: string)
    requires k < |again| && StandsAs(again[k], key, line) && line != ""
    requires forall j :: 0 <= j < |again| && j != k ==> again[j].key != key
    ensures IsOneTable(again, k, key, line)
  {
    OnlyLinePads(again[k].body, line);
  }

  lemma KeysStandOnce(O: Own, front: seq<Section>, servers: seq<Server>, i: nat)
    requires AreServers(O, servers) && HasNone(O, front, NamesOf(servers)) && HaveDistinctNames(servers) && i < |servers|
    ensures var doc := front + ServerSections(O, servers);
            forall j :: 0 <= j < |doc| && j != |front| + i ==> doc[j].key != O.serverKey(servers[i].name)
  {
    var doc := front + ServerSections(O, servers);
    forall j | 0 <= j < |doc| && j != |front| + i ensures doc[j].key != O.serverKey(servers[i].name) {
      KeyStandsOnce(O, front, servers, i, j);
    }
  }

  lemma KeyIsElsewhere(again: seq<Section>, doc: seq<Section>, k: nat, key: string)
    requires HaveSameKeys(again, doc) && forall j :: 0 <= j < |doc| && j != k ==> doc[j].key != key
    ensures forall j :: 0 <= j < |again| && j != k ==> again[j].key != key
  {
  }

  lemma ServerStandsAs(O: Own, s: Section, written: Section, server: Server)
    requires O.serverKey == ServerKey && O.headerOf == HeaderOf && written == ServerSection(O, server)
    requires s.key == written.key && s.header == written.header && IsPadded(s.body, TrimEnd(written.body))
    ensures StandsAs(s, ServerKey(server.name), server.line)
  {
  }

  /** In a document that ends with the servers' tables, each of them is the only one of its key. */
  lemma ServerIsOneTable(O: Own, front: seq<Section>, servers: seq<Server>, again: seq<Section>, i: nat)
    requires AreServers(O, servers) && O.serverKey == ServerKey && O.headerOf == HeaderOf
    requires HasNone(O, front, NamesOf(servers)) && HaveDistinctNames(servers) && i < |servers| && servers[i].line != ""
    requires HaveSameKeys(again, front + ServerSections(O, servers))
    requires |front| + i < |again| && StandsAs(again[|front| + i], ServerKey(servers[i].name), servers[i].line)
    ensures IsOneTable(again, |front| + i, ServerKey(servers[i].name), servers[i].line)
  {
    KeysStandOnce(O, front, servers, i);
    KeyIsElsewhere(again, front + ServerSections(O, servers), |front| + i, ServerKey(servers[i].name));
    TableStands(again, |front| + i, ServerKey(servers[i].name), servers[i].line);
  }

  // ----- the results -----

  ghost predicate HasServer(doc: seq<Section>, server: Server) {
    exists k :: IsOneTable(doc, k, "mcp_servers." + server.name, server.line)
  }

  ghost predicate HasFlagOn(doc: seq<Section>) {
    exists k, i :: TurnsOn(doc, k, i)
  }

  ghost predicate HasMarker(doc: seq<Section>, names: seq<string>) {
    exists k, i :: Marks(doc, k, i, names)
  }

  /** A file holds these servers: each one's table with its own address, the flag, and a marker that names exactly them. */
  ghost predicate Holds(doc: seq<Section>, servers: seq<Server>, names: seq<string>) {
    (forall i :: 0 <= i < |servers| ==> HasServer(doc, servers[i])) && HasFlagOn(doc) && HasMarker(doc, names)
  }

  lemma ServersStand(O: Own, front: seq<Section>, servers: seq<Server>, again: seq<Section>)
    requires AreServers(O, servers) && O.serverKey == ServerKey && O.headerOf == HeaderOf
    requires HasNone(O, front, NamesOf(servers)) && HaveDistinctNames(servers) && AreGoverned(servers)
    requires Pads(again, Normal(front + ServerSections(O, servers)))
    ensures forall i :: 0 <= i < |servers| ==> HasServer(again, servers[i])
  {
    var doc := front + ServerSections(O, servers);
    PadsHaveSameKeys(again, doc);
    forall i | 0 <= i < |servers| ensures HasServer(again, servers[i]) {
      PadsAt(again, doc, |front| + i);
      ServerAt(O, front, servers, i);
      ServerStandsAs(O, again[|front| + i], doc[|front| + i], servers[i]);
      ServerIsOneTable(O, front, servers, again, i);
    }
  }

  lemma ConfiguredHolds(e: seq<Section>, front: seq<Section>, servers: seq<Server>, order: set<string> -> seq<string>)
    requires Lists(order) && AreGoverned(servers) && HaveDistinctNames(servers)
    requires AllFit(LINES, e) && HasLines(e) && e == front + ServerSections(OwnLines(order), servers)
    requires HasNone(OwnLines(order), front, NamesOf(servers))
    requires IsFlagged(OwnLines(order), e) && IsMarkedWith(OwnLines(order), e, order(NamesOf(servers)))
    ensures Holds(ReadFile(Render(e)).sections, servers, order(NamesOf(servers)))
  {
    var again := ReadFile(Render(e)).sections;
    var names := order(NamesOf(servers));
    OrderedNames(servers, order);
    GovernedAreServers(servers, order);
    RenderedKeeps(e, order, names);
    ServersStand(OwnLines(order), front, servers, again);
    var k, i := FlaggedTurnsOn(again, order);
    var k', i' := MarkedMarks(again, order, names);
  }

  lemma FlaggedAppended(O: Own, doc: seq<Section>, tail: seq<Section>)
    requires IsFlagged(O, doc)
    ensures IsFlagged(O, doc + tail)
  {
    FeaturesIs(O, doc + tail, FirstFeatures(O, doc));
  }

  /** Configuring a tidy file leaves one table per server, with that server's own address and nothing else in it; the first
      features table turns the flag on; the first marker names exactly the servers. */
  lemma ConfiguringWrites(text: string, servers: seq<Server>, order: set<string> -> seq<string>)
    requires IsTidy(text, OwnLines(order)) && AreGoverned(servers) && HaveDistinctNames(servers) && Lists(order)
    ensures Holds(ReadFile(ConfigureFile(text, servers, order)).sections, servers, order(NamesOf(servers)))
    ensures SetOf(order(NamesOf(servers))) == set server | server in servers :: server.name
  {
    var O := OwnLines(order);
    var doc := ReadFile(text).sections;
    ConfiguredFits(text, servers, order);
    OwnIsOwn(order);
    GovernedAreServers(servers, order);
    ConfiguredIs(O, doc, servers);
    FrontIs(O, doc, servers);
    FlaggedAppended(O, Front(O, doc, servers), ServerSections(O, servers));
    ConfiguredHolds(Configure(O, doc, servers), Front(O, doc, servers), servers, order);
  }

  /** The user's sections after an edit: the same tables in the same order with the same lines of the user; at most a features
      table of the editor's follows. */
  lemma FrontRestores(O: Own, kept: seq<Section>, marked: seq<string>)
    requires IsOwn(O) && kept != [] && marked != [] && O.isMarker(O.markerOf(marked))
    ensures IsRestored(O, kept, Mark(O, Flag(O, kept), marked))
  {
    var flagged := Flag(O, kept);
    FlagKeepsUsers(O, kept);
    MarkKeepsUsers(O, flagged, marked);
    UsersChain(O, kept, flagged, Mark(O, flagged, marked));
    NoUserLines(O, O.featuresKey, [O.flagLine]);
  }

  /** Configuring keeps every table that is not one of the servers' or of those the old marker names: in order and line for
      line, but for marker lines, the feature flag and blank lines. */
  lemma ConfiguringKeepsUsers(text: string, servers: seq<Server>, order: set<string> -> seq<string>) returns (front: seq<Section>, tables: seq<Section>)
    requires IsTidy(text, OwnLines(order)) && AreGoverned(servers) && Lists(order)
    ensures ConfigureFile(text, servers, order) == Render(front + tables) && |tables| == |servers|
    ensures forall i :: 0 <= i < |servers| ==>
              tables[i] == Section("mcp_servers." + servers[i].name, "[mcp_servers." + servers[i].name + "]", [servers[i].line])
    ensures var doc := ReadFile(text).sections;
            IsRestored(OwnLines(order), Others(doc, SetOf(Managed(OwnLines(order), doc)) + NamesOf(servers)), front)
  {
    var O := OwnLines(order);
    var doc := ReadFile(text).sections;
    ConfiguredFits(text, servers, order);
    OwnIsOwn(order);
    GovernedAreServers(servers, order);
    ConfiguredIs(O, doc, servers);
    UserPartIsClear(O, doc, servers);
    FrontRestores(O, UserPart(O, doc, servers), order(NamesOf(servers)));
    DropIsOthers(O, doc, SetOf(Managed(O, doc)) + NamesOf(servers));
    front, tables := Front(O, doc, servers), ServerSections(O, servers);
    forall i | 0 <= i < |servers|
      ensures tables[i] == Section("mcp_servers." + servers[i].name, "[mcp_servers." + servers[i].name + "]", [servers[i].line])
    {
      TableText(servers[i].name);
    }
  }

  lemma TableText(name: string)
    ensures HeaderOf(ServerKey(name)) == "[mcp_servers." + name + "]" && ServerKey(name) == "mcp_servers." + name
  {
    assert "[" + ("mcp_servers." + name) + "]" == "[" + "mcp_servers." + name + "]";
    assert "[" + "mcp_servers." == "[mcp_servers.";
  }

  /** Taking out these tables and a marker line. */
  lemma TakenOut(O: Own, kept: seq<Section>)
    requires kept != []
    ensures |Mark(O, kept, [])| == |kept| && KeepsUsers(O, kept, Mark(O, kept, []))
    ensures Markers(O, Mark(O, kept, [])) == if Markers(O, kept) == 0 then 0 else Markers(O, kept) - 1
  {
    MarkKeepsUsers(O, kept, []);
    UnmarkCounts(O, kept);
  }

  lemma UninstalledIs(O: Own, doc: seq<Section>)
    requires HasPreamble(O, doc) && O.serverName == ServerName
    ensures Managed(O, doc) != [] ==>
              var kept := Others(doc, SetOf(Managed(O, doc))); kept != [] && Uninstall(O, doc) == Mark(O, kept, [])
  {
    DropKeepsFirst(O, doc, SetOf(Managed(O, doc)));
    DropIsOthers(O, doc, SetOf(Managed(O, doc)));
  }

  /** Removing takes exactly the tables the marker names out of a tidy file, and one marker line; the rest stays in order and
      line for line. Without a marker the file stays as it is. */
  lemma RemovingTakesOut(text: string, order: set<string> -> seq<string>) returns (left: seq<Section>)
    requires IsTidy(text, OwnLines(order)) && Lists(order)
    ensures var doc := ReadFile(text).sections; var names := Managed(OwnLines(order), doc);
            if names == [] then RemoveFromFile(text, order) == text
            else
              var kept := Others(doc, SetOf(names));
              && RemoveFromFile(text, order) == Render(left)
              && |left| == |kept| && KeepsUsers(OwnLines(order), kept, left)
              && Markers(OwnLines(order), left)
                 == if Markers(OwnLines(order), kept) == 0 then 0 else Markers(OwnLines(order), kept) - 1
  {
    var O := OwnLines(order);
    var doc := ReadFile(text).sections;
    var names := Managed(O, doc);
    TidyReads(text, order);
    left := Uninstall(O, doc);
    if names != [] {
      UninstalledIs(O, doc);
      TakenOut(O, Others(doc, SetOf(names)));
    }
  }
}
