/** A configuration file as table sections kept line for line: splitting lines into sections and rendering them. */
module CodexToml {
  import opened JsonGrammar

  datatype Delimiter = ThreeDouble | ThreeSingle

  /** `key` is the normalized table key, `header` the table line as written; both are empty above the first table. */
  datatype Section = Section(key: string, header: string, body: seq<string>)

  /** What a line is: a table header with its key, and the multi-line delimiters it opens or closes. */
  datatype LineRules = LineRules(header: string -> Option<string>, opens: string -> Option<Delimiter>, closes: (string, Delimiter) -> bool)

  /** A line that leaves it as it is whether a multi-line string is open. */
  ghost predicate IsStill(L: LineRules, line: string) {
    L.opens(line).None? && forall d :: !L.closes(line, d)
  }

  /** Which delimiter is open after a line. */
  function NextOpen(L: LineRules, open: Option<Delimiter>, line: string): Option<Delimiter> {
    if open.Some? then (if L.closes(line, open.value) then None else open) else L.opens(line)
  }

  // ----- reading -----

  datatype Reading = Reading(sections: seq<Section>, open: Option<Delimiter>)

  const PREAMBLE := Section("", "", [])

  function WithLine(s: Section, line: string): Section {
    s.(body := s.body + [line])
  }

  function ReadLine(L: LineRules, r: Reading, line: string): Reading
    requires r.sections != []
  {
    var n := |r.sections| - 1;
    if r.open.None? && L.header(line).Some?
    then Reading(r.sections + [Section(L.header(line).value, line, [])], L.opens(line))
    else Reading(r.sections[n := WithLine(r.sections[n], line)], NextOpen(L, r.open, line))
  }

  function ReadAll(L: LineRules, lines: seq<string>): (r: Reading)
    ensures r.sections != []
  {
    if lines == [] then Reading([PREAMBLE], None) else ReadLine(L, ReadAll(L, lines[..|lines| - 1]), lines[|lines| - 1])
  }

  // ----- the sections a reading can give -----

  function ScanBody(L: LineRules, open: Option<Delimiter>, body: seq<string>): Option<Delimiter> {
    if body == [] then open else NextOpen(L, ScanBody(L, open, body[..|body| - 1]), body[|body| - 1])
  }

  /** No line of a body is a header, other than inside a multi-line string. */
  predicate BodyFits(L: LineRules, open: Option<Delimiter>, body: seq<string>) {
    body == [] || (BodyFits(L, open, body[..|body| - 1])
                   && (ScanBody(L, open, body[..|body| - 1]).Some? || L.header(body[|body| - 1]).None?))
  }

  function Opening(L: LineRules, s: Section): Option<Delimiter> {
    if s.header == "" then None else L.opens(s.header)
  }

  function Closing(L: LineRules, s: Section): Option<Delimiter> {
    ScanBody(L, Opening(L, s), s.body)
  }

  predicate SectionFits(L: LineRules, s: Section) {
    BodyFits(L, Opening(L, s), s.body) && (if s.header == "" then s.key == "" else L.header(s.header) == Some(s.key))
  }

  /** Only the first section has no header, and only the last may leave a multi-line string open. */
  predicate IsSplit(L: LineRules, doc: seq<Section>, open: Option<Delimiter>) {
    doc != [] &&
      var last := doc[|doc| - 1];
      && SectionFits(L, last) && (last.header == "" <==> |doc| == 1) && Closing(L, last) == open
      && (|doc| > 1 ==> IsSplit(L, doc[..|doc| - 1], None))
  }

  function SectionLines(s: Section): seq<string> {
    (if s.header == "" then [] else [s.header]) + s.body
  }

  function Flat(doc: seq<Section>): seq<string> {
    if doc == [] then [] else Flat(doc[..|doc| - 1]) + SectionLines(doc[|doc| - 1])
  }

  lemma BodyMore(L: LineRules, open: Option<Delimiter>, body: seq<string>, line: string)
    ensures ScanBody(L, open, body + [line]) == NextOpen(L, ScanBody(L, open, body), line)
    ensures BodyFits(L, open, body + [line])
            == (BodyFits(L, open, body) && (ScanBody(L, open, body).Some? || L.header(line).None?))
  {
    assert (body + [line])[..|body|] == body;
  }

  lemma FlatMore(doc: seq<Section>, s: Section)
    ensures Flat(doc + [s]) == Flat(doc) + SectionLines(s)
  {
    assert (doc + [s])[..|doc|] == doc;
  }

  lemma FlatLast(doc: seq<Section>, line: string)
    requires doc != []
    ensures var n := |doc| - 1; Flat(doc[n := WithLine(doc[n], line)]) == Flat(doc) + [line]
  {
    var n := |doc| - 1;
    assert doc[n := WithLine(doc[n], line)] == doc[..n] + [WithLine(doc[n], line)];
    FlatMore(doc[..n], WithLine(doc[n], line));
    assert SectionLines(WithLine(doc[n], line)) == SectionLines(doc[n]) + [line];
    assert Flat(doc) == Flat(doc[..n]) + SectionLines(doc[n]);
  }

  lemma LastKept(L: LineRules, doc: seq<Section>, open: Option<Delimiter>, s: Section)
    requires IsSplit(L, doc, open) && SectionFits(L, s) && s.header == doc[|doc| - 1].header
    ensures IsSplit(L, doc[|doc| - 1 := s], Closing(L, s))
  {
    assert doc[|doc| - 1 := s][..|doc| - 1] == doc[..|doc| - 1];
  }

  lemma SectionAdded(L: LineRules, doc: seq<Section>, s: Section)
    requires IsSplit(L, doc, None) && SectionFits(L, s) && s.header != ""
    ensures IsSplit(L, doc + [s], Closing(L, s))
  {
    assert (doc + [s])[..|doc|] == doc;
  }

  lemma HeaderKeepsSplit(L: LineRules, r: Reading, line: string)
    requires L.header("").None? && IsSplit(L, r.sections, r.open) && r.open.None? && L.header(line).Some?
    ensures var next := ReadLine(L, r, line);
            IsSplit(L, next.sections, next.open) && Flat(next.sections) == Flat(r.sections) + [line]
  {
    var s := Section(L.header(line).value, line, []);
    assert line != "" && Closing(L, s) == L.opens(line) && SectionFits(L, s);
    SectionAdded(L, r.sections, s);
    FlatMore(r.sections, s);
    assert SectionLines(s) == [line];
  }

  lemma LineKeepsSplit(L: LineRules, r: Reading, line: string)
    requires IsSplit(L, r.sections, r.open) && (r.open.Some? || L.header(line).None?)
    ensures var next := ReadLine(L, r, line);
            IsSplit(L, next.sections, next.open) && Flat(next.sections) == Flat(r.sections) + [line]
  {
    var last := r.sections[|r.sections| - 1];
    BodyMore(L, Opening(L, last), last.body, line);
    LastKept(L, r.sections, r.open, WithLine(last, line));
    FlatLast(r.sections, line);
  }

  lemma FirstSplit(L: LineRules)
    ensures IsSplit(L, [PREAMBLE], None) && Flat([PREAMBLE]) == []
  {
    assert [PREAMBLE][..0] == [];
  }

  predicate IsReadingOf(L: LineRules, lines: seq<string>, r: Reading) {
    IsSplit(L, r.sections, r.open) && Flat(r.sections) == lines
  }

  lemma OneMoreLine(L: LineRules, lines: seq<string>, r: Reading, line: string)
    requires L.header("").None? && IsReadingOf(L, lines, r)
    ensures IsReadingOf(L, lines + [line], ReadLine(L, r, line))
  {
    if r.open.None? && L.header(line).Some? { HeaderKeepsSplit(L, r, line); } else { LineKeepsSplit(L, r, line); }
  }

  /** Reading loses no line and gives sections that fit. */
  lemma {:induction false} ReadingSplits(L: LineRules, lines: seq<string>)
    requires L.header("").None?
    ensures IsReadingOf(L, lines, ReadAll(L, lines))
  {
    if lines == [] {
      FirstSplit(L);
    } else {
      var n := |lines| - 1;
      ReadingSplits(L, lines[..n]);
      OneMoreLine(L, lines[..n], ReadAll(L, lines[..n]), lines[n]);
      assert lines[..n] + [lines[n]] == lines;
    }
  }

  lemma ReadMore(L: LineRules, lines: seq<string>, line: string)
    ensures ReadAll(L, lines + [line]) == ReadLine(L, ReadAll(L, lines), line)
  {
    assert (lines + [line])[..|lines|] == lines;
  }

  /** One line less in the last section. */
  function Shorter(doc: seq<Section>): seq<Section>
    requires doc != [] && doc[|doc| - 1].body != []
  {
    var n := |doc| - 1;
    doc[n := doc[n].(body := doc[n].body[..|doc[n].body| - 1])]
  }

  lemma ShorterSplit(L: LineRules, doc: seq<Section>, open: Option<Delimiter>) returns (before: Option<Delimiter>, line: string)
    requires IsSplit(L, doc, open) && doc[|doc| - 1].body != []
    ensures IsSplit(L, Shorter(doc), before) && Flat(doc) == Flat(Shorter(doc)) + [line]
    ensures ReadLine(L, Reading(Shorter(doc), before), line) == Reading(doc, open)
  {
    var n := |doc| - 1;
    var m := |doc[n].body| - 1;
    var s := doc[n].(body := doc[n].body[..m]);
    line := doc[n].body[m];
    before := Closing(L, s);
    assert doc[n] == WithLine(s, line) by { assert doc[n].body == doc[n].body[..m] + [line]; }
    BodyMore(L, Opening(L, s), s.body, line);
    LastKept(L, doc, open, s);
    FlatLast(Shorter(doc), line);
    assert Shorter(doc)[n := doc[n]] == doc;
  }

  lemma LonelyHeader(L: LineRules, doc: seq<Section>, open: Option<Delimiter>)
    requires IsSplit(L, doc, open) && doc[|doc| - 1].body == [] && |doc| > 1
    ensures var n := |doc| - 1;
            && Flat(doc) == Flat(doc[..n]) + [doc[n].header]
            && ReadLine(L, Reading(doc[..n], None), doc[n].header) == Reading(doc, open)
  {
    var n := |doc| - 1;
    assert SectionLines(doc[n]) == [doc[n].header];
    assert doc == doc[..n] + [doc[n]];
  }

  /** The lines of sections that fit read back as those sections. */
  lemma {:induction false} FlatReads(L: LineRules, doc: seq<Section>, open: Option<Delimiter>)
    requires IsSplit(L, doc, open)
    ensures ReadAll(L, Flat(doc)) == Reading(doc, open)
    decreases |doc|, |doc[|doc| - 1].body|
  {
    var n := |doc| - 1;
    if doc[n].body != [] {
      var before, line := ShorterSplit(L, doc, open);
      FlatReads(L, Shorter(doc), before);
      ReadMore(L, Flat(Shorter(doc)), line);
    } else if n > 0 {
      LonelyHeader(L, doc, open);
      FlatReads(L, doc[..n], None);
      ReadMore(L, Flat(doc[..n]), doc[n].header);
    } else {
      assert doc == [PREAMBLE];
      FirstSplit(L);
    }
  }
}
