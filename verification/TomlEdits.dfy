/** The edits of the configuration file: adding governed servers, and taking them out again, on its sections. */
module TomlEdits {
  import opened JsonGrammar
  import opened CodexToml

  /** The lines the editor writes and recognises as its own: the marker with the names it manages, the feature flag,
      and server tables. `order` lists a set of names. */
  datatype Own = Own(isMarker: string -> bool, markedNames: string -> seq<string>, markerOf: seq<string> -> string,
                     isFlag: string -> bool, flagLine: string, featuresKey: string,
                     serverName: string -> Option<string>, serverKey: string -> string, headerOf: string -> string,
                     order: set<string> -> seq<string>)

  /** A server's name, and the line with its address. */
  datatype Server = Server(name: string, line: string)

  function First<T>(s: seq<T>, p: T -> bool): (k: nat)
    ensures k <= |s| && (k < |s| ==> p(s[k]))
    ensures forall j :: 0 <= j < k ==> !p(s[j])
  {
    if s == [] then 0
    else
      var k := First(s[..|s| - 1], p);
      assert forall j :: 0 <= j < |s| - 1 ==> s[..|s| - 1][j] == s[j];
      if k < |s| - 1 || p(s[|s| - 1]) then k else |s|
  }

  predicate IsMarked(O: Own, s: Section) {
    First(s.body, O.isMarker) < |s.body|
  }

  function FirstMarked(O: Own, doc: seq<Section>): (k: nat)
    ensures k <= |doc| && (k < |doc| ==> IsMarked(O, doc[k]))
    ensures forall j :: 0 <= j < k ==> !IsMarked(O, doc[j])
  {
    First(doc, s => IsMarked(O, s))
  }

  function FirstFeatures(O: Own, doc: seq<Section>): (k: nat)
    ensures k <= |doc| && (k < |doc| ==> doc[k].key == O.featuresKey)
    ensures forall j :: 0 <= j < k ==> doc[j].key != O.featuresKey
  {
    First(doc, (s: Section) => s.key == O.featuresKey)
  }

  // ----- the edits -----

  function Managed(O: Own, doc: seq<Section>): seq<string> {
    var k := FirstMarked(O, doc);
    if k < |doc| then O.markedNames(doc[k].body[First(doc[k].body, O.isMarker)]) else []
  }

  predicate IsServerOf(O: Own, s: Section, names: set<string>) {
    O.serverName(s.key).Some? && O.serverName(s.key).value in names
  }

  function Drop(O: Own, doc: seq<Section>, names: set<string>): seq<Section> {
    if doc == [] then []
    else Drop(O, doc[..|doc| - 1], names) + if IsServerOf(O, doc[|doc| - 1], names) then [] else [doc[|doc| - 1]]
  }

  function FlagBody(O: Own, body: seq<string>): seq<string> {
    var i := First(body, O.isFlag);
    if i < |body| then body[i := O.flagLine] else [O.flagLine] + body
  }

  function Flag(O: Own, doc: seq<Section>): seq<Section> {
    var k := FirstFeatures(O, doc);
    if k < |doc| then doc[k := doc[k].(body := FlagBody(O, doc[k].body))]
    else doc + [Section(O.featuresKey, O.headerOf(O.featuresKey), [O.flagLine])]
  }

  function ServerSection(O: Own, server: Server): Section {
    Section(O.serverKey(server.name), O.headerOf(O.serverKey(server.name)), [server.line])
  }

  function ServerSections(O: Own, servers: seq<Server>): seq<Section> {
    seq(|servers|, i requires 0 <= i < |servers| => ServerSection(O, servers[i]))
  }

  function MarkBody(O: Own, body: seq<string>, names: seq<string>): seq<string> {
    var i := First(body, O.isMarker);
    if i == |body| then body
    else if names == [] then body[..i] + body[i + 1..] else body[i := O.markerOf(names)]
  }

  function Mark(O: Own, doc: seq<Section>, names: seq<string>): seq<Section>
    requires doc != []
  {
    var k := FirstMarked(O, doc);
    if k < |doc| then doc[k := doc[k].(body := MarkBody(O, doc[k].body, names))]
    else if names == [] then doc
    else doc[0 := doc[0].(body := [O.markerOf(names)] + doc[0].body)]
  }

  function NamesOf(servers: seq<Server>): set<string> {
    set s | s in servers :: s.name
  }

  function SetOf(names: seq<string>): set<string> {
    set n | n in names
  }

  /** The user's part of the document when these servers are configured. */
  function UserPart(O: Own, doc: seq<Section>, servers: seq<Server>): seq<Section> {
    Drop(O, doc, SetOf(Managed(O, doc)) + NamesOf(servers))
  }

  ghost predicate HasPreamble(O: Own, doc: seq<Section>) {
    doc != [] && O.serverName(doc[0].key).None?
  }

  lemma {:induction false} DropKeepsFirst(O: Own, doc: seq<Section>, names: set<string>)
    requires HasPreamble(O, doc)
    ensures HasPreamble(O, Drop(O, doc, names)) && Drop(O, doc, names)[0] == doc[0]
  {
    if |doc| > 1 { DropKeepsFirst(O, doc[..|doc| - 1], names); } else { assert Drop(O, doc[..0], names) == []; }
  }

  /** Adds the servers at the end, after what is left of the user's part with the feature flag on. */
  function Configure(O: Own, doc: seq<Section>, servers: seq<Server>): seq<Section>
    requires HasPreamble(O, doc)
  {
    var kept := UserPart(O, doc, servers);
    DropKeepsFirst(O, doc, SetOf(Managed(O, doc)) + NamesOf(servers));
    var flagged := if servers == [] then kept else Flag(O, kept);
    Mark(O, flagged + ServerSections(O, servers), O.order(NamesOf(servers)))
  }

  /** Takes out the servers the marker names; without a marker there is nothing to do. */
  function Uninstall(O: Own, doc: seq<Section>): seq<Section>
    requires HasPreamble(O, doc)
  {
    if Managed(O, doc) == [] then doc
    else
      DropKeepsFirst(O, doc, SetOf(Managed(O, doc)));
      Mark(O, Drop(O, doc, SetOf(Managed(O, doc))), [])
  }

  // ----- what the editor relies on -----

  ghost predicate IsOwn(O: Own) {
    && O.isFlag(O.flagLine) && !O.isMarker(O.flagLine) && O.serverName(O.featuresKey).None?
    && forall names :: SetOf(O.order(names)) == names
  }

  ghost predicate IsServer(O: Own, s: Server) {
    O.serverName(O.serverKey(s.name)) == Some(s.name) && !O.isMarker(s.line)
  }

  ghost predicate AreServers(O: Own, servers: seq<Server>) {
    && servers != [] && (forall i :: 0 <= i < |servers| ==> IsServer(O, servers[i]))
    && var names := O.order(NamesOf(servers));
       names != [] && O.isMarker(O.markerOf(names)) && O.markedNames(O.markerOf(names)) == names && !O.isFlag(O.markerOf(names))
  }

  // ----- twice is once -----

  lemma FirstIs<T>(s: seq<T>, p: T -> bool, k: nat)
    requires k <= |s| && (k < |s| ==> p(s[k])) && forall j :: 0 <= j < k ==> !p(s[j])
    ensures First(s, p) == k
  {
  }

  lemma MarkedIs(O: Own, doc: seq<Section>, k: nat)
    requires k <= |doc| && (k < |doc| ==> IsMarked(O, doc[k])) && forall j :: 0 <= j < k ==> !IsMarked(O, doc[j])
    ensures FirstMarked(O, doc) == k
  {
  }

  lemma FeaturesIs(O: Own, doc: seq<Section>, k: nat)
    requires k <= |doc| && (k < |doc| ==> doc[k].key == O.featuresKey) && forall j :: 0 <= j < k ==> doc[j].key != O.featuresKey
    ensures FirstFeatures(O, doc) == k
  {
  }

  /** The first marker names exactly these servers. */
  predicate IsMarkedWith(O: Own, doc: seq<Section>, names: seq<string>) {
    var k := FirstMarked(O, doc);
    k < |doc| && doc[k].body[First(doc[k].body, O.isMarker)] == O.markerOf(names)
  }

  lemma MarkMarks(O: Own, doc: seq<Section>, names: seq<string>)
    requires doc != [] && names != [] && O.isMarker(O.markerOf(names))
    ensures IsMarkedWith(O, Mark(O, doc, names), names)
  {
    var k := FirstMarked(O, doc);
    var r := Mark(O, doc, names);
    if k < |doc| {
      var i := First(doc[k].body, O.isMarker);
      FirstIs(r[k].body, O.isMarker, i);
      MarkedIs(O, r, k);
    } else {
      FirstIs(r[0].body, O.isMarker, 0);
      MarkedIs(O, r, 0);
    }
  }

  lemma MarkedStays(O: Own, doc: seq<Section>, names: seq<string>)
    requires names != [] && IsMarkedWith(O, doc, names)
    ensures Mark(O, doc, names) == doc
  {
    var k := FirstMarked(O, doc);
    var i := First(doc[k].body, O.isMarker);
    assert doc[k].body[i := O.markerOf(names)] == doc[k].body;
  }

  /** The feature flag is set in the first features table. */
  predicate IsFlagged(O: Own, doc: seq<Section>) {
    var k := FirstFeatures(O, doc);
    k < |doc| && First(doc[k].body, O.isFlag) < |doc[k].body| && doc[k].body[First(doc[k].body, O.isFlag)] == O.flagLine
  }

  lemma FlagFlags(O: Own, doc: seq<Section>)
    requires IsOwn(O)
    ensures IsFlagged(O, Flag(O, doc))
  {
    var k := FirstFeatures(O, doc);
    var r := Flag(O, doc);
    FeaturesIs(O, r, k);
    if k < |doc| {
      var i := First(doc[k].body, O.isFlag);
      FirstIs(r[k].body, O.isFlag, if i < |doc[k].body| then i else 0);
    } else {
      FirstIs(r[k].body, O.isFlag, 0);
    }
  }

  lemma FlaggedStays(O: Own, doc: seq<Section>)
    requires IsFlagged(O, doc)
    ensures Flag(O, doc) == doc
  {
    var k := FirstFeatures(O, doc);
    var i := First(doc[k].body, O.isFlag);
    assert doc[k].body[i := O.flagLine] == doc[k].body;
  }

  lemma MarkKeepsFlag(O: Own, doc: seq<Section>, names: seq<string>)
    requires IsOwn(O) && IsFlagged(O, doc) && names != [] && !O.isFlag(O.markerOf(names))
    ensures IsFlagged(O, Mark(O, doc, names))
  {
    var k := FirstFeatures(O, doc);
    var r := Mark(O, doc, names);
    FeaturesIs(O, r, k);
    if FirstMarked(O, doc) < |doc| {
      MarkBodyKeepsFlag(O, doc[k].body, names);
    } else if k == 0 {
      FirstIs(r[k].body, O.isFlag, First(doc[k].body, O.isFlag) + 1);
    }
  }

  lemma MarkBodyKeepsFlag(O: Own, body: seq<string>, names: seq<string>)
    requires IsOwn(O) && names != [] && !O.isFlag(O.markerOf(names))
    requires var i := First(body, O.isFlag); i < |body| && body[i] == O.flagLine
    ensures var r := MarkBody(O, body, names); var i := First(r, O.isFlag); i < |r| && r[i] == O.flagLine
  {
    var m := First(body, O.isMarker);
    var i := First(body, O.isFlag);
    if m < |body| {
      assert m != i;
      var r := MarkBody(O, body, names);
      assert r[i] == O.flagLine;
      FirstIs(r, O.isFlag, i);
    }
  }

  predicate HasNone(O: Own, doc: seq<Section>, names: set<string>) {
    forall i :: 0 <= i < |doc| ==> !IsServerOf(O, doc[i], names)
  }

  lemma {:induction false} DropClears(O: Own, doc: seq<Section>, names: set<string>)
    ensures HasNone(O, Drop(O, doc, names), names)
    ensures HasNone(O, doc, names) ==> Drop(O, doc, names) == doc
  {
    if doc != [] {
      DropClears(O, doc[..|doc| - 1], names);
      assert doc == doc[..|doc| - 1] + [doc[|doc| - 1]];
    }
  }

  lemma {:induction false} DropServers(O: Own, doc: seq<Section>, tail: seq<Section>, names: set<string>)
    requires HasNone(O, doc, names) && forall i :: 0 <= i < |tail| ==> IsServerOf(O, tail[i], names)
    ensures Drop(O, doc + tail, names) == doc
  {
    if tail == [] {
      assert doc + tail == doc;
      DropClears(O, doc, names);
    } else {
      DropServers(O, doc, tail[..|tail| - 1], names);
      assert (doc + tail)[..|doc + tail| - 1] == doc + tail[..|tail| - 1];
    }
  }

  lemma MarkAppended(O: Own, doc: seq<Section>, tail: seq<Section>, names: seq<string>)
    requires doc != [] && forall i :: 0 <= i < |tail| ==> !IsMarked(O, tail[i])
    ensures Mark(O, doc + tail, names) == Mark(O, doc, names) + tail
  {
    var k := FirstMarked(O, doc);
    MarkedIs(O, doc + tail, if k < |doc| then k else |doc + tail|);
  }

  lemma ServersAreServers(O: Own, servers: seq<Server>)
    requires AreServers(O, servers)
    ensures var tail := ServerSections(O, servers);
            forall i :: 0 <= i < |tail| ==> !IsMarked(O, tail[i]) && IsServerOf(O, tail[i], NamesOf(servers))
  {
    var tail := ServerSections(O, servers);
    forall i | 0 <= i < |tail| ensures !IsMarked(O, tail[i]) && IsServerOf(O, tail[i], NamesOf(servers)) {
      assert IsServer(O, servers[i]);
      FirstIs(tail[i].body, O.isMarker, 1);
    }
  }

  /** The part of a configured document before its servers. */
  function Front(O: Own, doc: seq<Section>, servers: seq<Server>): seq<Section>
    requires HasPreamble(O, doc)
  {
    DropKeepsFirst(O, doc, SetOf(Managed(O, doc)) + NamesOf(servers));
    Mark(O, Flag(O, UserPart(O, doc, servers)), O.order(NamesOf(servers)))
  }

  lemma FlagHasNone(O: Own, doc: seq<Section>, names: set<string>)
    requires IsOwn(O) && HasNone(O, doc, names)
    ensures HasNone(O, Flag(O, doc), names)
  {
  }

  lemma MarkHasNone(O: Own, doc: seq<Section>, names: set<string>, marked: seq<string>)
    requires doc != [] && HasNone(O, doc, names)
    ensures HasNone(O, Mark(O, doc, marked), names)
  {
  }

  lemma UserPartIsClear(O: Own, doc: seq<Section>, servers: seq<Server>)
    requires HasPreamble(O, doc)
    ensures HasPreamble(O, UserPart(O, doc, servers)) && HasNone(O, UserPart(O, doc, servers), NamesOf(servers))
  {
    var stale := SetOf(Managed(O, doc)) + NamesOf(servers);
    DropKeepsFirst(O, doc, stale);
    DropClears(O, doc, stale);
  }

  lemma FrontIs(O: Own, doc: seq<Section>, servers: seq<Server>)
    requires IsOwn(O) && HasPreamble(O, doc) && AreServers(O, servers)
    ensures var front := Front(O, doc, servers);
            HasPreamble(O, front) && HasNone(O, front, NamesOf(servers)) && IsFlagged(O, front)
  {
    var kept := UserPart(O, doc, servers);
    var marked := O.order(NamesOf(servers));
    UserPartIsClear(O, doc, servers);
    FlagHasNone(O, kept, NamesOf(servers));
    FlagFlags(O, kept);
    MarkKeepsFlag(O, Flag(O, kept), marked);
    MarkHasNone(O, Flag(O, kept), NamesOf(servers), marked);
  }

  lemma MarkedManages(O: Own, doc: seq<Section>, names: seq<string>)
    requires IsMarkedWith(O, doc, names) && O.markedNames(O.markerOf(names)) == names
    ensures Managed(O, doc) == names
  {
  }

  /** A configured document: its front, flagged and marked and without the servers, and then the servers. */
  lemma ConfiguredIs(O: Own, doc: seq<Section>, servers: seq<Server>)
    requires IsOwn(O) && HasPreamble(O, doc) && AreServers(O, servers)
    ensures var front := Front(O, doc, servers);
            var names := NamesOf(servers);
            var e := Configure(O, doc, servers);
            && e == front + ServerSections(O, servers) && HasPreamble(O, e)
            && IsMarkedWith(O, e, O.order(names)) && Managed(O, e) == O.order(names)
            && Drop(O, e, names) == front
  {
    var marked := O.order(NamesOf(servers));
    var flagged := Flag(O, UserPart(O, doc, servers));
    UserPartIsClear(O, doc, servers);
    FrontIs(O, doc, servers);
    ServersAreServers(O, servers);
    MarkAppended(O, flagged, ServerSections(O, servers), marked);
    MarkMarks(O, flagged + ServerSections(O, servers), marked);
    MarkedManages(O, Configure(O, doc, servers), marked);
    DropServers(O, Front(O, doc, servers), ServerSections(O, servers), NamesOf(servers));
  }

  /** Configuring the same servers again changes nothing. */
  lemma ConfigureTwice(O: Own, doc: seq<Section>, servers: seq<Server>)
    requires IsOwn(O) && HasPreamble(O, doc) && AreServers(O, servers)
    ensures HasPreamble(O, Configure(O, doc, servers))
    ensures Configure(O, Configure(O, doc, servers), servers) == Configure(O, doc, servers)
  {
    var e := Configure(O, doc, servers);
    var names := NamesOf(servers);
    ConfiguredIs(O, doc, servers);
    FrontIs(O, doc, servers);
    assert SetOf(Managed(O, e)) + names == names;
    FlaggedStays(O, Front(O, doc, servers));
    MarkedStays(O, e, O.order(names));
  }

  // ----- taking the servers out again -----

  /** What the user wrote in a section: everything but marker lines and, in a features table, the flag. */
  predicate IsUsers(O: Own, key: string, line: string) {
    !O.isMarker(line) && !(key == O.featuresKey && O.isFlag(line))
  }

  function UserLines(O: Own, key: string, body: seq<string>): seq<string> {
    if body == [] then []
    else UserLines(O, key, body[..|body| - 1]) + if IsUsers(O, key, body[|body| - 1]) then [body[|body| - 1]] else []
  }

  lemma {:induction false} UserLinesConcat(O: Own, key: string, a: seq<string>, b: seq<string>)
    ensures UserLines(O, key, a + b) == UserLines(O, key, a) + UserLines(O, key, b)
  {
    if b == [] {
      assert a + b == a;
    } else {
      UserLinesConcat(O, key, a, b[..|b| - 1]);
      assert (a + b)[..|a + b| - 1] == a + b[..|b| - 1];
    }
  }

  /** Lines that are not the user's come and go unnoticed. */
  lemma UserLinesSwap(O: Own, key: string, a: seq<string>, gone: seq<string>, come: seq<string>, b: seq<string>)
    requires forall i :: 0 <= i < |gone| ==> !IsUsers(O, key, gone[i])
    requires forall i :: 0 <= i < |come| ==> !IsUsers(O, key, come[i])
    ensures UserLines(O, key, a + gone + b) == UserLines(O, key, a + come + b)
  {
    UserLinesConcat(O, key, a + gone, b);
    UserLinesConcat(O, key, a + come, b);
    UserLinesConcat(O, key, a, gone);
    UserLinesConcat(O, key, a, come);
    NoUserLines(O, key, gone);
    NoUserLines(O, key, come);
  }

  lemma {:induction false} NoUserLines(O: Own, key: string, lines: seq<string>)
    requires forall i :: 0 <= i < |lines| ==> !IsUsers(O, key, lines[i])
    ensures UserLines(O, key, lines) == []
  {
    if lines != [] { NoUserLines(O, key, lines[..|lines| - 1]); }
  }

  /** Section by section, in order, the same table with the same lines of the user. */
  predicate KeepsUsers(O: Own, before: seq<Section>, after: seq<Section>) {
    && |before| <= |after|
    && forall i :: 0 <= i < |before| ==>
         && after[i].header == before[i].header && after[i].key == before[i].key
         && UserLines(O, before[i].key, after[i].body) == UserLines(O, before[i].key, before[i].body)
  }

  lemma FlagBodyKeepsUsers(O: Own, body: seq<string>)
    requires IsOwn(O)
    ensures UserLines(O, O.featuresKey, FlagBody(O, body)) == UserLines(O, O.featuresKey, body)
  {
    var i := First(body, O.isFlag);
    if i < |body| {
      UserLinesSwap(O, O.featuresKey, body[..i], [body[i]], [O.flagLine], body[i + 1..]);
      assert body == body[..i] + [body[i]] + body[i + 1..];
      assert body[i := O.flagLine] == body[..i] + [O.flagLine] + body[i + 1..];
    } else {
      UserLinesSwap(O, O.featuresKey, [], [], [O.flagLine], body);
      assert body == [] + [] + body;
      assert [O.flagLine] + body == [] + [O.flagLine] + body;
    }
  }

  lemma FlagKeepsUsers(O: Own, doc: seq<Section>)
    requires IsOwn(O)
    ensures KeepsUsers(O, doc, Flag(O, doc))
  {
    var k := FirstFeatures(O, doc);
    if k < |doc| { FlagBodyKeepsUsers(O, doc[k].body); }
  }

  lemma MarkBodyKeepsUsers(O: Own, key: string, body: seq<string>, names: seq<string>)
    requires names != [] ==> O.isMarker(O.markerOf(names))
    ensures UserLines(O, key, MarkBody(O, body, names)) == UserLines(O, key, body)
  {
    var i := First(body, O.isMarker);
    if i < |body| {
      assert body == body[..i] + [body[i]] + body[i + 1..];
      if names == [] {
        UserLinesSwap(O, key, body[..i], [body[i]], [], body[i + 1..]);
        assert body[..i] + [] + body[i + 1..] == body[..i] + body[i + 1..];
      } else {
        UserLinesSwap(O, key, body[..i], [body[i]], [O.markerOf(names)], body[i + 1..]);
        assert body[i := O.markerOf(names)] == body[..i] + [O.markerOf(names)] + body[i + 1..];
      }
    }
  }

  lemma PushKeepsUsers(O: Own, key: string, body: seq<string>, line: string)
    requires O.isMarker(line)
    ensures UserLines(O, key, [line] + body) == UserLines(O, key, body)
  {
    UserLinesSwap(O, key, [], [], [line], body);
    assert body == [] + [] + body;
    assert [line] + body == [] + [line] + body;
  }

  lemma MarkKeepsUsers(O: Own, doc: seq<Section>, names: seq<string>)
    requires doc != [] && (names != [] ==> O.isMarker(O.markerOf(names)))
    ensures KeepsUsers(O, doc, Mark(O, doc, names)) && |Mark(O, doc, names)| == |doc|
  {
    var k := FirstMarked(O, doc);
    if k < |doc| {
      MarkBodyKeepsUsers(O, doc[k].key, doc[k].body, names);
    } else if names != [] {
      PushKeepsUsers(O, doc[0].key, doc[0].body, O.markerOf(names));
    }
  }

  lemma UsersChain(O: Own, a: seq<Section>, b: seq<Section>, c: seq<Section>)
    requires KeepsUsers(O, a, b) && KeepsUsers(O, b, c)
    ensures KeepsUsers(O, a, c)
  {
  }

  /** The user's sections, in order and line for line, but for the marker and the flag; at most a features table is new. */
  predicate IsRestored(O: Own, kept: seq<Section>, doc: seq<Section>) {
    && KeepsUsers(O, kept, doc)
    && |doc| == |kept| + (if FirstFeatures(O, kept) < |kept| then 0 else 1)
    && (|doc| > |kept| ==> doc[|kept|].key == O.featuresKey && UserLines(O, O.featuresKey, doc[|kept|].body) == [])
  }

  /** Configuring servers and taking them out again restores the user's sections of other names. */
  lemma UninstallRestores(O: Own, doc: seq<Section>, servers: seq<Server>)
    requires IsOwn(O) && HasPreamble(O, doc) && AreServers(O, servers)
    ensures HasPreamble(O, Configure(O, doc, servers))
    ensures IsRestored(O, UserPart(O, doc, servers), Uninstall(O, Configure(O, doc, servers)))
  {
    var e := Configure(O, doc, servers);
    ConfiguredIs(O, doc, servers);
    assert SetOf(Managed(O, e)) == NamesOf(servers);
    UserPartIsClear(O, doc, servers);
    FrontKeepsUsers(O, UserPart(O, doc, servers), O.order(NamesOf(servers)));
  }

  lemma FrontKeepsUsers(O: Own, kept: seq<Section>, marked: seq<string>)
    requires IsOwn(O) && kept != [] && marked != [] && O.isMarker(O.markerOf(marked))
    ensures IsRestored(O, kept, Mark(O, Mark(O, Flag(O, kept), marked), []))
  {
    var flagged := Flag(O, kept);
    var front := Mark(O, flagged, marked);
    FlagKeepsUsers(O, kept);
    MarkKeepsUsers(O, flagged, marked);
    MarkKeepsUsers(O, front, []);
    UsersChain(O, flagged, front, Mark(O, front, []));
    UsersChain(O, kept, flagged, Mark(O, front, []));
    NoUserLines(O, O.featuresKey, [O.flagLine]);
  }

  // ----- without servers -----

  function BodyMarkers(O: Own, body: seq<string>): nat {
    if body == [] then 0 else BodyMarkers(O, body[..|body| - 1]) + if O.isMarker(body[|body| - 1]) then 1 else 0
  }

  /** How many marker lines there are. */
  function Markers(O: Own, doc: seq<Section>): nat {
    if doc == [] then 0 else Markers(O, doc[..|doc| - 1]) + BodyMarkers(O, doc[|doc| - 1].body)
  }

  lemma {:induction false} BodyMarkersConcat(O: Own, a: seq<string>, b: seq<string>)
    ensures BodyMarkers(O, a + b) == BodyMarkers(O, a) + BodyMarkers(O, b)
  {
    if b == [] {
      assert a + b == a;
    } else {
      BodyMarkersConcat(O, a, b[..|b| - 1]);
      assert (a + b)[..|a + b| - 1] == a + b[..|b| - 1];
    }
  }

  lemma {:induction false} MarkersReplaced(O: Own, doc: seq<Section>, k: nat, body: seq<string>)
    requires k < |doc|
    ensures Markers(O, doc[k := doc[k].(body := body)]) + BodyMarkers(O, doc[k].body) == Markers(O, doc) + BodyMarkers(O, body)
  {
    var n := |doc| - 1;
    var r := doc[k := doc[k].(body := body)];
    if k == n {
      assert r[..n] == doc[..n];
    } else {
      MarkersReplaced(O, doc[..n], k, body);
      assert r[..n] == doc[..n][k := doc[..n][k].(body := body)];
    }
  }

  lemma {:induction false} NoBodyMarkers(O: Own, body: seq<string>)
    ensures BodyMarkers(O, body) == 0 <==> First(body, O.isMarker) == |body|
  {
    if body != [] { NoBodyMarkers(O, body[..|body| - 1]); }
  }

  lemma {:induction false} NoMarkers(O: Own, doc: seq<Section>)
    ensures Markers(O, doc) == 0 <==> FirstMarked(O, doc) == |doc|
  {
    if doc != [] {
      var n := |doc| - 1;
      NoMarkers(O, doc[..n]);
      NoBodyMarkers(O, doc[n].body);
      var k := FirstMarked(O, doc[..n]);
      MarkedIs(O, doc, if k < n then k else if IsMarked(O, doc[n]) then n else |doc|);
    }
  }

  lemma OneMarkerLess(O: Own, body: seq<string>)
    requires First(body, O.isMarker) < |body|
    ensures BodyMarkers(O, MarkBody(O, body, [])) == BodyMarkers(O, body) - 1
  {
    var i := First(body, O.isMarker);
    BodyMarkersConcat(O, body[..i], [body[i]]);
    BodyMarkersConcat(O, body[..i + 1], body[i + 1..]);
    BodyMarkersConcat(O, body[..i], body[i + 1..]);
    assert body[..i] + [body[i]] == body[..i + 1] && body[..i + 1] + body[i + 1..] == body;
    assert BodyMarkers(O, [body[i]]) == 1 by { assert [body[i]][..0] == []; }
  }

  /** Removing the marker removes one marker line, if there is any. */
  lemma UnmarkCounts(O: Own, doc: seq<Section>)
    requires doc != []
    ensures Markers(O, Mark(O, doc, [])) == if Markers(O, doc) == 0 then 0 else Markers(O, doc) - 1
  {
    NoMarkers(O, doc);
    var k := FirstMarked(O, doc);
    if k < |doc| {
      OneMarkerLess(O, doc[k].body);
      MarkersReplaced(O, doc, k, MarkBody(O, doc[k].body, []));
    }
  }

  lemma {:induction false} DropMarkers(O: Own, doc: seq<Section>, names: set<string>)
    ensures Markers(O, Drop(O, doc, names)) <= Markers(O, doc)
  {
    if doc != [] {
      var front := Drop(O, doc[..|doc| - 1], names);
      DropMarkers(O, doc[..|doc| - 1], names);
      assert (front + [doc[|doc| - 1]])[..|front|] == front;
      assert front + [] == front;
    }
  }

  /** With no server left, configuring drops the managed sections and one marker. */
  lemma EmptyIs(O: Own, doc: seq<Section>)
    requires HasPreamble(O, doc) && O.order({}) == []
    ensures UserPart(O, doc, []) != [] && Configure(O, doc, []) == Mark(O, UserPart(O, doc, []), [])
    ensures HasPreamble(O, Configure(O, doc, []))
  {
    UserPartIsClear(O, doc, []);
    assert NamesOf([]) == {};
    assert ServerSections(O, []) == [];
    assert UserPart(O, doc, []) + [] == UserPart(O, doc, []);
  }

  /** Without a marker there is nothing to drop; with one, a marker line goes. */
  lemma EmptyAgain(O: Own, doc: seq<Section>)
    requires HasPreamble(O, doc) && O.order({}) == []
    ensures Markers(O, doc) == 0 ==> Configure(O, doc, []) == doc
    ensures Markers(O, doc) > 0 ==> Markers(O, Configure(O, doc, [])) < Markers(O, doc)
  {
    EmptyIs(O, doc);
    NoMarkers(O, doc);
    if Markers(O, doc) == 0 {
      assert SetOf([]) + NamesOf([]) == {};
      DropClears(O, doc, {});
    } else {
      var stale := SetOf(Managed(O, doc)) + NamesOf([]);
      DropMarkers(O, doc, stale);
      UnmarkCounts(O, UserPart(O, doc, []));
    }
  }

  /** With no server left, configuring twice is configuring once exactly when what is left of the document
      has at most one marker line. */
  lemma EmptyTwice(O: Own, doc: seq<Section>)
    requires HasPreamble(O, doc) && O.order({}) == []
    ensures HasPreamble(O, Configure(O, doc, []))
    ensures Configure(O, Configure(O, doc, []), []) == Configure(O, doc, []) <==> Markers(O, UserPart(O, doc, [])) <= 1
  {
    EmptyIs(O, doc);
    UnmarkCounts(O, UserPart(O, doc, []));
    EmptyAgain(O, Configure(O, doc, []));
  }
}
