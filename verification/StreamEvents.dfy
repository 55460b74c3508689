/** Streams of events: when an unfinished document is kept, and what a stream of whole documents adds up to. */
module StreamEvents {
  import opened JsonGrammar
  import opened Scanner
  import opened ScannerReads
  import opened Usage
  import opened TextLines
  import opened EventStream

  // ----- an unfinished document can be completed -----

  /** Not a document yet, but the front of one. */
  ghost predicate IsUnfinished(doc: Bytes) {
    !IsDocument(doc) && exists more: Bytes :: IsDocument(doc + more)
  }

  /** An empty string where a value may start. */
  lemma EmptyValue(rules: Rules, s: State) returns (table: Table)
    requires Valid(s) && Resting(s)
    requires var top := Top(s.frames); top.stage.AfterColon? || (top.kind.Array? && top.stage.AfterComma?)
    ensures Run(rules, s, ['"', '"']) == Inside(Retop(s.frames, AfterValue), table, Between)
  {
    RunOneThen(rules, s, '"', ['"']);
    RunOne(rules, Step(rules, s, '"'), '"');
    assert ['"'] + ['"'] == ['"', '"'];
    table := Run(rules, s, ['"', '"']).table;
  }

  /** An empty name where a name may start. */
  lemma EmptyName(rules: Rules, s: State)
    requires Valid(s) && Resting(s) && Top(s.frames).kind.Object? && Top(s.frames).stage.AfterComma?
    ensures Run(rules, s, ['"', '"']) == Inside(Retop(s.frames, AfterKey(KeyOf(rules, ['"', '"']))), s.table, Between)
  {
    RunOneThen(rules, s, '"', ['"']);
    RunOne(rules, Step(rules, s, '"'), '"');
    assert ['"'] + ['"'] == ['"', '"'];
  }

  /** Closing a group that may be closed leaves one group fewer. */
  lemma CloseOne(rules: Rules, s: State)
    requires Valid(s) && Resting(s) && (Top(s.frames).stage.Opened? || Top(s.frames).stage.AfterValue?)
    ensures var r := Run(rules, s, [End(Top(s.frames).kind)]);
            if |s.frames| == 1 then r.After? else Resting(r) && r.frames == s.frames[..|s.frames| - 1]
  {
    RunOne(rules, s, End(Top(s.frames).kind));
  }

  function Need(stage: Stage): nat {
    match stage
    case Opened => 0
    case AfterValue => 0
    case AfterColon(_) => 1
    case AfterKey(_) => 2
    case AfterComma => 3
  }

  /** Between tokens, any open document can be completed. */
  lemma {:induction false} Completed(rules: Rules, s: State) returns (more: Bytes)
    requires Valid(s) && Resting(s)
    ensures Run(rules, s, more).After?
    decreases |s.frames|, Need(Top(s.frames).stage)
  {
    var next: Bytes;
    var top := Top(s.frames);
    match top.stage {
      case Opened =>
        CloseOne(rules, s);
        next := [End(top.kind)];
      case AfterValue =>
        CloseOne(rules, s);
        next := [End(top.kind)];
      case AfterColon(_) =>
        var table := EmptyValue(rules, s);
        next := ['"', '"'];
      case AfterKey(_) =>
        RunOne(rules, s, ':');
        next := [':'];
      case AfterComma =>
        if top.kind.Object? {
          EmptyName(rules, s);
        } else {
          var table := EmptyValue(rules, s);
        }
        next := ['"', '"'];
    }
    var r := Run(rules, s, next);
    if r.After? {
      more := next;
    } else {
      var rest := Completed(rules, r);
      RunConcat(rules, s, next, rest);
      more := next + rest;
    }
  }

  /** A line feed ends any token. */
  lemma FeedRests(rules: Rules, s: State)
    requires Valid(s)
    ensures var r := Step(rules, s, '\n'); r.Inside? ==> Resting(r)
  {
  }

  lemma {:induction false} BadStays(rules: Rules, p: Bytes)
    ensures Run(rules, Bad, p).Bad?
  {
    if p != [] { BadStays(rules, p[..|p| - 1]); }
  }

  lemma EmptyObject(rules: Rules)
    ensures Run(rules, Before, "{}").After?
  {
    RunOneThen(rules, Before, '{', "}");
    RunOne(rules, Step(rules, Before, '{'), '}');
    assert ['{'] + "}" == "{}";
  }

  /** After a line feed the scanner has given up exactly when nothing can make a document of the text any more. */
  lemma UnfinishedGoesOn(rules: Rules, text: Bytes)
    ensures var doc := text + ['\n']; var s := Run(rules, Before, doc);
            && (s.After? <==> IsDocument(doc))
            && (!s.After? && !s.Bad? <==> IsUnfinished(doc))
  {
    var doc := text + ['\n'];
    var s := Run(rules, Before, doc);
    AcceptsExactlyDocuments(rules, doc);
    RunThenOne(rules, Before, text, '\n');
    FeedRests(rules, Run(rules, Before, text));
    if s.Bad? {
      forall more: Bytes ensures !IsDocument(doc + more) {
        RunConcat(rules, Before, doc, more);
        BadStays(rules, more);
        AcceptsExactlyDocuments(rules, doc + more);
      }
    } else if !s.After? {
      var more: Bytes;
      if s.Before? {
        EmptyObject(rules);
        more := "{}";
      } else {
        more := Completed(rules, s);
      }
      RunConcat(rules, Before, doc, more);
      AcceptsExactlyDocuments(rules, doc + more);
    }
  }

  /** What one line does: data that completes a document adds its usage and starts over; data that could still be completed
      is kept; other data is dropped; a blank line drops what was kept; any other line changes nothing. */
  lemma LineSettles(how: Reading, r: Reader, line: Bytes)
    ensures var doc := r.doc + Payload(line) + ['\n']; var next := ReadLine(how, r, line);
            && (line == "" || line == "\r" ==> next == Reader(r.totals, []))
            && (DATA <= line ==>
                  && (IsDocument(doc) ==> Run(how.scan, Before, doc).After?
                                          && next == Reader(Add(r.totals, how.wire(Run(how.scan, Before, doc).table)), []))
                  && (IsUnfinished(doc) ==> next == Reader(r.totals, doc))
                  && (!IsDocument(doc) && !IsUnfinished(doc) ==> next == Reader(r.totals, [])))
            && (!(DATA <= line) && line != "" && line != "\r" ==> next == r)
  {
    UnfinishedGoesOn(how.scan, r.doc + Payload(line));
  }

  // ----- whole events -----

  /** The lines of an event with these payloads, the blank one at its end included. */
  function EventLines(payloads: seq<Bytes>): seq<Bytes> {
    DataLines(payloads) + [[]]
  }

  function DataLines(payloads: seq<Bytes>): seq<Bytes> {
    if payloads == [] then [] else DataLines(payloads[..|payloads| - 1]) + [DATA + payloads[|payloads| - 1]]
  }

  /** An event of one document, in any number of data lines. */
  ghost predicate IsEvent(payloads: seq<Bytes>) {
    IsDocument(Unlines(payloads)) && forall i :: 0 <= i < |payloads| ==> HasNoFeed(payloads[i])
  }

  /** Where a reader stands within an event: still collecting, or past the document with blank text left over. */
  predicate StandsWithin(how: Reading, t: UsageTotals, text: Bytes, r: Reader) {
    var s := Run(how.scan, Before, text);
    if s.After? then r.totals == Add(t, how.wire(s.table)) && IsBlank(r.doc) else !s.Bad? && r == Reader(t, text)
  }

  lemma {:induction false} AfterStays(rules: Rules, table: Table, p: Bytes)
    ensures Run(rules, After(table), p) == if IsBlank(p) then After(table) else Bad
  {
    if p != [] {
      AfterStays(rules, table, p[..|p| - 1]);
      assert IsBlank(p) <==> IsBlank(p[..|p| - 1]) && IsSpace(p[|p| - 1]);
    }
  }

  /** A data line within an event. */
  lemma StandsOn(how: Reading, t: UsageTotals, text: Bytes, payload: Bytes, r: Reader)
    requires StandsWithin(how, t, text, r) && !Run(how.scan, Before, text + payload + ['\n']).Bad?
    ensures StandsWithin(how, t, text + payload + ['\n'], ReadLine(how, r, DATA + payload))
  {
    var s, more := Run(how.scan, Before, text), payload + ['\n'];
    assert text + payload + ['\n'] == text + more && r.doc + payload + ['\n'] == r.doc + more;
    assert Payload(DATA + payload) == payload;
    RunConcat(how.scan, Before, text, more);
    if s.After? {
      AfterStays(how.scan, s.table, more);
      RunLead(how.scan, Before, r.doc + more);
    }
  }

  lemma NeverBad(rules: Rules, text: Bytes, rest: Bytes)
    requires IsDocument(text + rest)
    ensures !Run(rules, Before, text).Bad?
  {
    RunConcat(rules, Before, text, rest);
    AcceptsExactlyDocuments(rules, text + rest);
    if Run(rules, Before, text).Bad? { BadStays(rules, rest); }
  }

  /** Data lines within an event whose document may still go on. */
  lemma {:induction false} EventStands(how: Reading, lines: seq<Bytes>, payloads: seq<Bytes>, rest: Bytes)
    requires ReadLines(how, lines).doc == [] && IsDocument(Unlines(payloads) + rest)
    ensures StandsWithin(how, ReadLines(how, lines).totals, Unlines(payloads), ReadLines(how, lines + DataLines(payloads)))
  {
    if payloads == [] {
      assert lines + DataLines(payloads) == lines;
    } else {
      var front, last := payloads[..|payloads| - 1], payloads[|payloads| - 1];
      assert Unlines(payloads) + rest == Unlines(front) + (last + ['\n'] + rest);
      EventStands(how, lines, front, last + ['\n'] + rest);
      NeverBad(how.scan, Unlines(payloads), rest);
      assert lines + DataLines(payloads) == lines + DataLines(front) + [DATA + last];
      ReadLinesMore(how, lines + DataLines(front), DATA + last);
      StandsOn(how, ReadLines(how, lines).totals, Unlines(front), last, ReadLines(how, lines + DataLines(front)));
    }
  }

  /** After a blank line, an event of one document adds that document's usage, however it is cut into data lines. */
  lemma EventAddsItsDocument(how: Reading, lines: seq<Bytes>, payloads: seq<Bytes>)
    requires ReadLines(how, lines).doc == [] && IsEvent(payloads)
    ensures ReadLines(how, lines + EventLines(payloads))
            == Reader(Finish(how, ReadLines(how, lines).totals, Run(how.scan, Before, Unlines(payloads))), [])
  {
    assert Unlines(payloads) + [] == Unlines(payloads);
    EventStands(how, lines, payloads, []);
    AcceptsExactlyDocuments(how.scan, Unlines(payloads));
    assert lines + EventLines(payloads) == lines + DataLines(payloads) + [[]];
    ReadLinesMore(how, lines + DataLines(payloads), []);
  }

  // ----- whole streams -----

  function AllLines(events: seq<seq<Bytes>>): seq<Bytes> {
    if events == [] then [] else AllLines(events[..|events| - 1]) + EventLines(events[|events| - 1])
  }

  /** The documents of the events, added up in order. */
  function AddAll(how: Reading, events: seq<seq<Bytes>>): UsageTotals {
    if events == [] then NO_USAGE
    else Finish(how, AddAll(how, events[..|events| - 1]), Run(how.scan, Before, Unlines(events[|events| - 1])))
  }

  lemma {:induction false} EventsRead(how: Reading, events: seq<seq<Bytes>>)
    requires forall i :: 0 <= i < |events| ==> IsEvent(events[i])
    ensures ReadLines(how, AllLines(events)) == Reader(AddAll(how, events), [])
  {
    if events != [] {
      var front := events[..|events| - 1];
      EventsRead(how, front);
      EventAddsItsDocument(how, AllLines(front), events[|events| - 1]);
    }
  }

  lemma {:induction false} DataLinesHaveNoFeed(payloads: seq<Bytes>)
    requires forall i :: 0 <= i < |payloads| ==> HasNoFeed(payloads[i])
    ensures forall i :: 0 <= i < |DataLines(payloads)| ==> '\n' !in DataLines(payloads)[i]
  {
    if payloads != [] {
      DataLinesHaveNoFeed(payloads[..|payloads| - 1]);
      assert HasNoFeed(payloads[|payloads| - 1]);
    }
  }

  lemma {:induction false} AllLinesHaveNoFeed(events: seq<seq<Bytes>>)
    requires forall i :: 0 <= i < |events| ==> IsEvent(events[i])
    ensures forall i :: 0 <= i < |AllLines(events)| ==> '\n' !in AllLines(events)[i]
  {
    if events != [] {
      AllLinesHaveNoFeed(events[..|events| - 1]);
      DataLinesHaveNoFeed(events[|events| - 1]);
    }
  }

  /** A stream of such events reports the usage of its documents, added up in order. */
  lemma StreamAddsUp(how: Reading, events: seq<seq<Bytes>>)
    requires forall i :: 0 <= i < |events| ==> IsEvent(events[i])
    ensures StreamTotals(how, Unlines(AllLines(events))) == AddAll(how, events)
  {
    EventsRead(how, events);
    AllLinesHaveNoFeed(events);
    SplitUnlines(AllLines(events));
  }

  lemma OneEvent(body: Bytes)
    ensures AllLines([[body]]) == [DATA + body, []] && Unlines([body]) == body + ['\n']
    ensures Unlines(AllLines([[body]])) == DATA + body + ['\n'] + ['\n']
  {
    assert [body][..0] == [] && [[body]][..0] == [];
    assert DataLines([body]) == [DATA + body];
    assert [DATA + body] + [[]] == [DATA + body, []];
    UnlinesMore([], body);
    UnlinesMore([DATA + body], []);
    UnlinesMore([], DATA + body);
    assert [] + [DATA + body] == [DATA + body] && [] + [body] == [body];
  }

  lemma FeedAddsNothing(how: Reading, body: Bytes)
    requires IsDocument(body)
    ensures IsDocument(body + ['\n']) && BodyTotals(how, body + ['\n']) == BodyTotals(how, body)
  {
    AcceptsExactlyDocuments(how.scan, body);
    RunThenOne(how.scan, Before, body, '\n');
    AcceptsExactlyDocuments(how.scan, body + ['\n']);
  }

  /** One event reports what the same document reports as a whole response body. */
  lemma EventIsBody(how: Reading, body: Bytes)
    requires IsDocument(body) && HasNoFeed(body)
    ensures StreamTotals(how, DATA + body + ['\n'] + ['\n']) == BodyTotals(how, body)
  {
    FeedAddsNothing(how, body);
    OneEvent(body);
    StreamAddsUp(how, [[body]]);
    assert [[body]][..0] == [];
    assert AddAll(how, [[body]]) == BodyTotals(how, body + ['\n']);
  }
}
