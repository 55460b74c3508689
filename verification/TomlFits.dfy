/** The edits keep the sections such that their lines read back as they are. */
module TomlFits {
  import opened JsonGrammar
  import opened CodexToml
  import opened TomlEdits
  import opened TomlBlanks

  /** Every section fits and closes its multi-line strings. */
  predicate AllFit(L: LineRules, doc: seq<Section>) {
    && doc != []
    && forall i :: 0 <= i < |doc| ==>
         SectionFits(L, doc[i]) && Closing(L, doc[i]).None? && (doc[i].header == "" <==> i == 0)
  }

  lemma {:induction false} SplitFits(L: LineRules, doc: seq<Section>)
    ensures IsSplit(L, doc, None) <==> AllFit(L, doc)
  {
    if |doc| > 1 {
      var n := |doc| - 1;
      SplitFits(L, doc[..n]);
      assert doc == doc[..n] + [doc[n]];
    }
  }

  /** A line that may stand anywhere in a body. */
  ghost predicate IsQuiet(L: LineRules, line: string) {
    IsStill(L, line) && L.header(line).None?
  }

  lemma {:induction false} ScanConcat(L: LineRules, open: Option<Delimiter>, a: seq<string>, b: seq<string>)
    ensures ScanBody(L, open, a + b) == ScanBody(L, ScanBody(L, open, a), b)
    ensures BodyFits(L, open, a + b) == (BodyFits(L, open, a) && BodyFits(L, ScanBody(L, open, a), b))
  {
    if b == [] {
      assert a + b == a;
    } else {
      var m := |b| - 1;
      ScanConcat(L, open, a, b[..m]);
      BodyMore(L, open, a + b[..m], b[m]);
      BodyMore(L, ScanBody(L, open, a), b[..m], b[m]);
      assert a + b == a + b[..m] + [b[m]] && b == b[..m] + [b[m]];
    }
  }

  lemma StillScans(L: LineRules, open: Option<Delimiter>, line: string)
    requires IsStill(L, line)
    ensures ScanBody(L, open, [line]) == open
    ensures L.header(line).None? ==> BodyFits(L, open, [line])
  {
    assert [line][..0] == [];
  }

  /** A still line can be replaced by quiet ones, or be left out. */
  lemma SwapFits(L: LineRules, open: Option<Delimiter>, a: seq<string>, gone: seq<string>, come: seq<string>, b: seq<string>)
    requires BodyFits(L, open, a + gone + b) && |gone| <= 1 && |come| <= 1
    requires gone != [] ==> IsStill(L, gone[0])
    requires come != [] ==> IsQuiet(L, come[0])
    ensures BodyFits(L, open, a + come + b) && ScanBody(L, open, a + come + b) == ScanBody(L, open, a + gone + b)
  {
    ScanConcat(L, open, a + gone, b);
    ScanConcat(L, open, a, gone);
    ScanConcat(L, open, a + come, b);
    ScanConcat(L, open, a, come);
    if gone != [] {
      StillScans(L, ScanBody(L, open, a), gone[0]);
      assert gone == [gone[0]];
    }
    if come != [] {
      StillScans(L, ScanBody(L, open, a), come[0]);
      assert come == [come[0]];
    }
  }

  lemma {:induction false} TrimFits(L: LineRules, open: Option<Delimiter>, body: seq<string>)
    requires IsStill(L, "") && BodyFits(L, open, body)
    ensures BodyFits(L, open, TrimEnd(body)) && ScanBody(L, open, TrimEnd(body)) == ScanBody(L, open, body)
  {
    if body != [] && body[|body| - 1] == "" { TrimFits(L, open, body[..|body| - 1]); }
  }

  lemma NormalFits(L: LineRules, doc: seq<Section>)
    requires IsStill(L, "") && AllFit(L, doc)
    ensures AllFit(L, Normal(doc))
  {
    forall i | 0 <= i < |doc| ensures SectionFits(L, Trimmed(doc[i])) && Closing(L, Trimmed(doc[i])).None? {
      TrimFits(L, Opening(L, doc[i]), doc[i].body);
    }
  }

  /** The lines the editor would replace do not open or close multi-line strings. */
  ghost predicate OwnLinesStill(L: LineRules, O: Own, doc: seq<Section>) {
    forall i :: 0 <= i < |doc| ==> BodyStill(L, O, doc[i].body)
  }

  ghost predicate BodyStill(L: LineRules, O: Own, body: seq<string>) {
    forall j :: 0 <= j < |body| ==> O.isMarker(body[j]) || O.isFlag(body[j]) ==> IsStill(L, body[j])
  }

  ghost predicate IsTableOf(L: LineRules, O: Own, key: string) {
    O.headerOf(key) != "" && L.header(O.headerOf(key)) == Some(key) && L.opens(O.headerOf(key)).None?
  }

  /** What the editor writes reads back as written. */
  ghost predicate WritesWell(L: LineRules, O: Own, servers: seq<Server>) {
    && IsQuiet(L, O.flagLine) && IsTableOf(L, O, O.featuresKey)
    && (forall i :: 0 <= i < |servers| ==> IsTableOf(L, O, O.serverKey(servers[i].name)) && IsQuiet(L, servers[i].line))
    && IsQuiet(L, O.markerOf(O.order(NamesOf(servers))))
  }

  lemma {:induction false} DropFits(L: LineRules, O: Own, doc: seq<Section>, names: set<string>)
    requires AllFit(L, doc) && HasPreamble(O, doc) && OwnLinesStill(L, O, doc)
    ensures AllFit(L, Drop(O, doc, names)) && OwnLinesStill(L, O, Drop(O, doc, names))
  {
    if |doc| > 1 {
      DropFits(L, O, doc[..|doc| - 1], names);
    } else {
      assert Drop(O, doc[..0], names) == [];
    }
  }

  lemma FlagBodyFits(L: LineRules, O: Own, open: Option<Delimiter>, body: seq<string>)
    requires IsQuiet(L, O.flagLine) && BodyFits(L, open, body) && BodyStill(L, O, body)
    ensures BodyFits(L, open, FlagBody(O, body)) && ScanBody(L, open, FlagBody(O, body)) == ScanBody(L, open, body)
    ensures BodyStill(L, O, FlagBody(O, body))
  {
    var i := First(body, O.isFlag);
    if i < |body| {
      Swapped(body, i, O.flagLine);
      SwapFits(L, open, body[..i], [body[i]], [O.flagLine], body[i + 1..]);
    } else {
      assert body == [] + [] + body && [O.flagLine] + body == [] + [O.flagLine] + body;
      SwapFits(L, open, [], [], [O.flagLine], body);
    }
  }

  lemma BodyReplaced(L: LineRules, doc: seq<Section>, k: nat, body: seq<string>)
    requires AllFit(L, doc) && k < |doc|
    requires BodyFits(L, Opening(L, doc[k]), body) && ScanBody(L, Opening(L, doc[k]), body).None?
    ensures AllFit(L, doc[k := doc[k].(body := body)])
  {
  }

  lemma TableAdded(L: LineRules, doc: seq<Section>, s: Section, line: string)
    requires AllFit(L, doc) && s.header != "" && L.header(s.header) == Some(s.key) && L.opens(s.header).None?
    requires s.body == [line] && IsQuiet(L, line)
    ensures AllFit(L, doc + [s])
  {
    StillScans(L, None, line);
  }

  lemma FlagFits(L: LineRules, O: Own, doc: seq<Section>)
    requires IsQuiet(L, O.flagLine) && IsTableOf(L, O, O.featuresKey) && AllFit(L, doc) && OwnLinesStill(L, O, doc)
    ensures AllFit(L, Flag(O, doc)) && OwnLinesStill(L, O, Flag(O, doc))
  {
    var k := FirstFeatures(O, doc);
    if k < |doc| {
      FlagBodyFits(L, O, Opening(L, doc[k]), doc[k].body);
      BodyReplaced(L, doc, k, FlagBody(O, doc[k].body));
    } else {
      TableAdded(L, doc, Section(O.featuresKey, O.headerOf(O.featuresKey), [O.flagLine]), O.flagLine);
    }
  }

  lemma {:induction false} ServersFit(L: LineRules, O: Own, doc: seq<Section>, servers: seq<Server>)
    requires AllFit(L, doc) && OwnLinesStill(L, O, doc)
    requires forall i :: 0 <= i < |servers| ==> IsTableOf(L, O, O.serverKey(servers[i].name)) && IsQuiet(L, servers[i].line)
    ensures AllFit(L, doc + ServerSections(O, servers)) && OwnLinesStill(L, O, doc + ServerSections(O, servers))
  {
    if servers == [] {
      assert doc + ServerSections(O, servers) == doc;
    } else {
      var n := |servers| - 1;
      ServersFit(L, O, doc, servers[..n]);
      TableAdded(L, doc + ServerSections(O, servers[..n]), ServerSection(O, servers[n]), servers[n].line);
      assert doc + ServerSections(O, servers) == doc + ServerSections(O, servers[..n]) + [ServerSection(O, servers[n])];
    }
  }

  lemma Swapped(body: seq<string>, i: nat, line: string)
    requires i < |body|
    ensures body == body[..i] + [body[i]] + body[i + 1..]
    ensures body[i := line] == body[..i] + [line] + body[i + 1..]
    ensures body[..i] + body[i + 1..] == body[..i] + [] + body[i + 1..]
  {
  }

  lemma MarkBodyFits(L: LineRules, O: Own, open: Option<Delimiter>, body: seq<string>, names: seq<string>)
    requires BodyFits(L, open, body) && BodyStill(L, O, body) && First(body, O.isMarker) < |body|
    requires names != [] ==> IsQuiet(L, O.markerOf(names))
    ensures BodyFits(L, open, MarkBody(O, body, names)) && ScanBody(L, open, MarkBody(O, body, names)) == ScanBody(L, open, body)
  {
    var i := First(body, O.isMarker);
    var come := if names == [] then [] else [O.markerOf(names)];
    Swapped(body, i, O.markerOf(names));
    SwapFits(L, open, body[..i], [body[i]], come, body[i + 1..]);
  }

  lemma MarkBodyStill(L: LineRules, O: Own, body: seq<string>, names: seq<string>)
    requires BodyStill(L, O, body) && (names != [] ==> IsQuiet(L, O.markerOf(names)))
    ensures BodyStill(L, O, MarkBody(O, body, names))
  {
    var i := First(body, O.isMarker);
    var r := MarkBody(O, body, names);
    forall j | 0 <= j < |r| && (O.isMarker(r[j]) || O.isFlag(r[j])) ensures IsStill(L, r[j]) {
      if i == |body| || j < i { assert r[j] == body[j]; }
      else if names == [] { assert r[j] == body[j + 1]; }
      else if j > i { assert r[j] == body[j]; }
    }
  }

  lemma MarkFits(L: LineRules, O: Own, doc: seq<Section>, names: seq<string>)
    requires AllFit(L, doc) && OwnLinesStill(L, O, doc) && (names != [] ==> IsQuiet(L, O.markerOf(names)))
    ensures AllFit(L, Mark(O, doc, names)) && OwnLinesStill(L, O, Mark(O, doc, names))
  {
    var k := FirstMarked(O, doc);
    if k < |doc| {
      MarkBodyFits(L, O, Opening(L, doc[k]), doc[k].body, names);
      MarkBodyStill(L, O, doc[k].body, names);
      BodyReplaced(L, doc, k, MarkBody(O, doc[k].body, names));
    } else if names != [] {
      PushFits(L, O, doc, O.markerOf(names));
    }
  }

  lemma PushBodyFits(L: LineRules, O: Own, open: Option<Delimiter>, body: seq<string>, line: string)
    requires BodyFits(L, open, body) && BodyStill(L, O, body) && IsQuiet(L, line)
    ensures BodyFits(L, open, [line] + body) && ScanBody(L, open, [line] + body) == ScanBody(L, open, body)
    ensures BodyStill(L, O, [line] + body)
  {
    assert body == [] + [] + body && [line] + body == [] + [line] + body;
    SwapFits(L, open, [], [], [line], body);
  }

  lemma PushFits(L: LineRules, O: Own, doc: seq<Section>, line: string)
    requires AllFit(L, doc) && OwnLinesStill(L, O, doc) && IsQuiet(L, line)
    ensures var r := doc[0 := doc[0].(body := [line] + doc[0].body)]; AllFit(L, r) && OwnLinesStill(L, O, r)
  {
    PushBodyFits(L, O, Opening(L, doc[0]), doc[0].body, line);
    BodyReplaced(L, doc, 0, [line] + doc[0].body);
  }

  /** Configuring keeps it so that the sections' lines read back as the sections. */
  lemma ConfigureFits(L: LineRules, O: Own, doc: seq<Section>, servers: seq<Server>)
    requires HasPreamble(O, doc) && AllFit(L, doc) && OwnLinesStill(L, O, doc) && WritesWell(L, O, servers)
    ensures AllFit(L, Configure(O, doc, servers)) && OwnLinesStill(L, O, Configure(O, doc, servers))
  {
    var stale := SetOf(Managed(O, doc)) + NamesOf(servers);
    DropFits(L, O, doc, stale);
    var kept := UserPart(O, doc, servers);
    FlagFits(L, O, kept);
    var flagged := if servers == [] then kept else Flag(O, kept);
    ServersFit(L, O, flagged, servers);
    MarkFits(L, O, flagged + ServerSections(O, servers), O.order(NamesOf(servers)));
  }

  /** So does removing. */
  lemma UninstallFits(L: LineRules, O: Own, doc: seq<Section>)
    requires HasPreamble(O, doc) && AllFit(L, doc) && OwnLinesStill(L, O, doc)
    ensures AllFit(L, Uninstall(O, doc)) && OwnLinesStill(L, O, Uninstall(O, doc))
  {
    if Managed(O, doc) != [] {
      DropFits(L, O, doc, SetOf(Managed(O, doc)));
      MarkFits(L, O, Drop(O, doc, SetOf(Managed(O, doc))), []);
    }
  }
}
