/** Blank lines at the end of a section: rendering drops them, and no edit depends on them. */
module TomlBlanks {
  import opened CodexToml
  import opened TomlEdits

  predicate AreBlank(lines: seq<string>) {
    forall i :: 0 <= i < |lines| ==> lines[i] == ""
  }

  function TrimEnd(body: seq<string>): seq<string> {
    if body != [] && body[|body| - 1] == "" then TrimEnd(body[..|body| - 1]) else body
  }

  function Trimmed(s: Section): Section {
    s.(body := TrimEnd(s.body))
  }

  /** The sections as they are rendered. */
  function Normal(doc: seq<Section>): (r: seq<Section>)
    ensures |r| == |doc| && forall i :: 0 <= i < |doc| ==> r[i] == Trimmed(doc[i])
  {
    if doc == [] then [] else Normal(doc[..|doc| - 1]) + [Trimmed(doc[|doc| - 1])]
  }

  predicate IsPadded(longer: seq<string>, body: seq<string>) {
    body <= longer && AreBlank(longer[|body|..])
  }

  lemma {:induction false} TrimIsPadded(body: seq<string>)
    ensures IsPadded(body, TrimEnd(body))
  {
    if body != [] && body[|body| - 1] == "" { TrimIsPadded(body[..|body| - 1]); }
  }

  lemma {:induction false} PaddedTrims(longer: seq<string>, body: seq<string>)
    requires IsPadded(longer, body)
    ensures TrimEnd(longer) == TrimEnd(body)
  {
    if |longer| > |body| {
      assert longer[|longer| - 1] == longer[|body|..][|longer| - 1 - |body|];
      assert longer[..|longer| - 1][|body|..] == longer[|body|..][..|longer| - 1 - |body|];
      PaddedTrims(longer[..|longer| - 1], body);
    } else {
      assert longer == body;
    }
  }

  /** The same sections, up to blank lines at the end of the first one's. */
  predicate Pads(longer: seq<Section>, doc: seq<Section>) {
    && |longer| == |doc|
    && forall i :: 0 <= i < |doc| ==>
         longer[i].key == doc[i].key && longer[i].header == doc[i].header && IsPadded(longer[i].body, doc[i].body)
  }

  lemma NormalPads(doc: seq<Section>)
    ensures Pads(doc, Normal(doc))
  {
    forall i | 0 <= i < |doc| ensures IsPadded(doc[i].body, TrimEnd(doc[i].body)) { TrimIsPadded(doc[i].body); }
  }

  lemma PadsNormal(longer: seq<Section>, doc: seq<Section>)
    requires Pads(longer, doc)
    ensures Normal(longer) == Normal(doc)
  {
    forall i | 0 <= i < |doc| ensures TrimEnd(longer[i].body) == TrimEnd(doc[i].body) { PaddedTrims(longer[i].body, doc[i].body); }
  }

  /** Blank lines are neither markers nor flags. */
  predicate IgnoresBlanks(O: Own) {
    !O.isMarker("") && !O.isFlag("")
  }

  lemma FirstPadded(longer: seq<string>, body: seq<string>, p: string -> bool)
    requires IsPadded(longer, body) && !p("")
    ensures First(longer, p) == if First(body, p) < |body| then First(body, p) else |longer|
  {
    var k := First(body, p);
    assert forall j :: |body| <= j < |longer| ==> longer[j] == longer[|body|..][j - |body|];
    FirstIs(longer, p, if k < |body| then k else |longer|);
  }

  lemma MarkedPads(O: Own, longer: seq<Section>, doc: seq<Section>)
    requires Pads(longer, doc) && IgnoresBlanks(O)
    ensures FirstMarked(O, longer) == FirstMarked(O, doc)
    ensures var k := FirstMarked(O, doc); k < |doc| ==> First(longer[k].body, O.isMarker) == First(doc[k].body, O.isMarker)
    ensures Managed(O, longer) == Managed(O, doc)
  {
    forall i | 0 <= i < |doc| ensures IsMarked(O, longer[i]) == IsMarked(O, doc[i]) { FirstPadded(longer[i].body, doc[i].body, O.isMarker); }
    var k := FirstMarked(O, doc);
    MarkedIs(O, longer, k);
    if k < |doc| { FirstPadded(longer[k].body, doc[k].body, O.isMarker); }
  }

  lemma {:induction false} DropPads(O: Own, longer: seq<Section>, doc: seq<Section>, names: set<string>)
    requires Pads(longer, doc)
    ensures Pads(Drop(O, longer, names), Drop(O, doc, names))
  {
    if doc != [] { DropPads(O, longer[..|doc| - 1], doc[..|doc| - 1], names); }
  }

  lemma AppendPads(longer: seq<Section>, doc: seq<Section>, tail: seq<Section>)
    requires Pads(longer, doc)
    ensures Pads(longer + tail, doc + tail)
  {
  }

  lemma SectionPads(longer: seq<Section>, doc: seq<Section>, k: nat, more: seq<string>, body: seq<string>)
    requires Pads(longer, doc) && k < |doc| && IsPadded(more, body)
    ensures Pads(longer[k := longer[k].(body := more)], doc[k := doc[k].(body := body)])
  {
  }

  lemma FlagBodyPads(O: Own, longer: seq<string>, body: seq<string>)
    requires IsPadded(longer, body) && IgnoresBlanks(O)
    ensures IsPadded(FlagBody(O, longer), FlagBody(O, body))
  {
    FirstPadded(longer, body, O.isFlag);
    var i := First(body, O.isFlag);
    if i < |body| {
      assert FlagBody(O, longer)[|body|..] == longer[|body|..];
    } else {
      assert FlagBody(O, longer)[|body| + 1..] == longer[|body|..];
    }
  }

  lemma FlagPads(O: Own, longer: seq<Section>, doc: seq<Section>)
    requires Pads(longer, doc) && IgnoresBlanks(O)
    ensures Pads(Flag(O, longer), Flag(O, doc))
  {
    var k := FirstFeatures(O, doc);
    FeaturesIs(O, longer, k);
    if k < |doc| {
      FlagBodyPads(O, longer[k].body, doc[k].body);
      SectionPads(longer, doc, k, FlagBody(O, longer[k].body), FlagBody(O, doc[k].body));
    } else {
      AppendPads(longer, doc, [Section(O.featuresKey, O.headerOf(O.featuresKey), [O.flagLine])]);
    }
  }

  lemma MarkBodyPads(O: Own, longer: seq<string>, body: seq<string>, names: seq<string>)
    requires IsPadded(longer, body) && IgnoresBlanks(O) && First(body, O.isMarker) < |body|
    ensures IsPadded(MarkBody(O, longer, names), MarkBody(O, body, names))
  {
    FirstPadded(longer, body, O.isMarker);
    var i := First(body, O.isMarker);
    WithoutOne(longer, body, i);
    Padding(longer, body, body[i := O.markerOf(names)]);
    assert longer[i := O.markerOf(names)] == body[i := O.markerOf(names)] + longer[|body|..];
  }

  lemma Padding(longer: seq<string>, body: seq<string>, other: seq<string>)
    requires IsPadded(longer, body)
    ensures IsPadded(other + longer[|body|..], other)
  {
    assert (other + longer[|body|..])[|other|..] == longer[|body|..];
  }

  lemma WithoutOne(longer: seq<string>, body: seq<string>, i: nat)
    requires IsPadded(longer, body) && i < |body|
    ensures IsPadded(longer[..i] + longer[i + 1..], body[..i] + body[i + 1..])
  {
    Padding(longer, body, body[..i] + body[i + 1..]);
    assert longer[..i] + longer[i + 1..] == body[..i] + body[i + 1..] + longer[|body|..];
  }

  lemma MarkPads(O: Own, longer: seq<Section>, doc: seq<Section>, names: seq<string>)
    requires Pads(longer, doc) && IgnoresBlanks(O) && doc != []
    ensures Pads(Mark(O, longer, names), Mark(O, doc, names))
  {
    MarkedPads(O, longer, doc);
    var k := FirstMarked(O, doc);
    if k < |doc| {
      MarkBodyPads(O, longer[k].body, doc[k].body, names);
      SectionPads(longer, doc, k, MarkBody(O, longer[k].body, names), MarkBody(O, doc[k].body, names));
    } else if names != [] {
      var line := O.markerOf(names);
      assert ([line] + longer[0].body)[|doc[0].body| + 1..] == longer[0].body[|doc[0].body|..];
      SectionPads(longer, doc, 0, [line] + longer[0].body, [line] + doc[0].body);
    }
  }

  /** Configuring does not depend on blank lines at the end of sections. */
  lemma ConfigurePads(O: Own, longer: seq<Section>, doc: seq<Section>, servers: seq<Server>)
    requires Pads(longer, doc) && IgnoresBlanks(O) && HasPreamble(O, doc) && HasPreamble(O, longer)
    ensures Pads(Configure(O, longer, servers), Configure(O, doc, servers))
  {
    MarkedPads(O, longer, doc);
    var stale := SetOf(Managed(O, doc)) + NamesOf(servers);
    DropPads(O, longer, doc, stale);
    DropKeepsFirst(O, longer, stale);
    DropKeepsFirst(O, doc, stale);
    var keptLonger, kept := Drop(O, longer, stale), Drop(O, doc, stale);
    if servers != [] { FlagPads(O, keptLonger, kept); }
    var flaggedLonger := if servers == [] then keptLonger else Flag(O, keptLonger);
    var flagged := if servers == [] then kept else Flag(O, kept);
    AppendPads(flaggedLonger, flagged, ServerSections(O, servers));
    MarkPads(O, flaggedLonger + ServerSections(O, servers), flagged + ServerSections(O, servers), O.order(NamesOf(servers)));
  }

  lemma UninstallPads(O: Own, longer: seq<Section>, doc: seq<Section>)
    requires Pads(longer, doc) && IgnoresBlanks(O) && HasPreamble(O, doc) && HasPreamble(O, longer)
    ensures Pads(Uninstall(O, longer), Uninstall(O, doc))
  {
    MarkedPads(O, longer, doc);
    var stale := SetOf(Managed(O, doc));
    if Managed(O, doc) != [] {
      DropPads(O, longer, doc, stale);
      DropKeepsFirst(O, longer, stale);
      DropKeepsFirst(O, doc, stale);
      MarkPads(O, Drop(O, longer, stale), Drop(O, doc, stale), []);
    }
  }

  lemma {:induction false} BlankMarkers(O: Own, longer: seq<string>, body: seq<string>)
    requires IsPadded(longer, body) && !O.isMarker("")
    ensures BodyMarkers(O, longer) == BodyMarkers(O, body)
  {
    if |longer| > |body| {
      assert longer[|longer| - 1] == longer[|body|..][|longer| - 1 - |body|];
      assert longer[..|longer| - 1][|body|..] == longer[|body|..][..|longer| - 1 - |body|];
      BlankMarkers(O, longer[..|longer| - 1], body);
    } else {
      assert longer == body;
    }
  }

  lemma {:induction false} MarkersPads(O: Own, longer: seq<Section>, doc: seq<Section>)
    requires Pads(longer, doc) && !O.isMarker("")
    ensures Markers(O, longer) == Markers(O, doc)
  {
    if doc != [] {
      MarkersPads(O, longer[..|doc| - 1], doc[..|doc| - 1]);
      BlankMarkers(O, longer[|doc| - 1].body, doc[|doc| - 1].body);
    }
  }
}
