/** The server-sent-events sink: a whole-stream specification, and the sink that reads the stream in chunks.
    Lines end at a line feed; "data:" lines carry document text; a blank line drops an unfinished document. */
module EventStream {
  import opened JsonGrammar
  import opened Scanner
  import opened ScannerReads
  import opened ScannerContent
  import opened MetadataScanner
  import opened Usage
  import opened Allowlist
  import opened TextLines

  // ----- the whole stream -----

  const DATA: string := "data:"

  predicate IsData(line: Bytes) { DATA <= line }

  predicate IsEventEnd(line: Bytes) { line == [] || line == ['\r'] }

  function Payload(line: Bytes): Bytes {
    if IsData(line) then line[|DATA|..] else []
  }

  /** The scanner's rules, and how a finished document's table is read. */
  datatype Reading = Reading(scan: Rules, wire: Table -> WireUsage)

  /** The reading the meter uses. */
  function MetadataReading(decode: Bytes -> string): Reading {
    Reading(MetadataRules(decode), table => WireOf(decode, table))
  }

  /** The totals so far and the text of the document being collected. */
  datatype Reader = Reader(totals: UsageTotals, doc: Bytes)

  /** A finished document adds its usage. */
  function Finish(how: Reading, totals: UsageTotals, s: State): UsageTotals {
    if s.After? then Add(totals, how.wire(s.table)) else totals
  }

  function ReadLine(how: Reading, r: Reader, line: Bytes): Reader {
    if IsData(line) then
      var doc := r.doc + Payload(line) + ['\n'];
      var s := Run(how.scan, Before, doc);
      if s.After? || s.Bad? then Reader(Finish(how, r.totals, s), []) else Reader(r.totals, doc)
    else if IsEventEnd(line) then r.(doc := [])
    else r
  }

  function ReadLines(how: Reading, lines: seq<Bytes>): Reader {
    if lines == [] then Reader(NO_USAGE, [])
    else ReadLine(how, ReadLines(how, lines[..|lines| - 1]), lines[|lines| - 1])
  }

  /** What a stream reports: its last line counts even without a line feed. */
  function StreamTotals(how: Reading, stream: Bytes): UsageTotals {
    var Lines(complete, rest) := Split(stream);
    ReadLine(how, ReadLines(how, complete), rest).totals
  }

  lemma ReadLinesMore(how: Reading, lines: seq<Bytes>, line: Bytes)
    ensures ReadLines(how, lines + [line]) == ReadLine(how, ReadLines(how, lines), line)
  {
    assert (lines + [line])[..|lines|] == lines;
  }

  /** Asking for totals ends the line; asking again changes nothing. */
  lemma TotalsIdempotent(how: Reading, stream: Bytes)
    ensures StreamTotals(how, stream + ['\n']) == StreamTotals(how, stream)
  {
    SplitLine(stream);
    ReadLinesMore(how, Split(stream).complete, Split(stream).rest);
  }

  lemma {:induction false} LinesStayInRange(decode: Bytes -> string, lines: seq<Bytes>)
    ensures InRange(ReadLines(MetadataReading(decode), lines).totals)
  {
    if lines != [] {
      var front := ReadLines(MetadataReading(decode), lines[..|lines| - 1]);
      LinesStayInRange(decode, lines[..|lines| - 1]);
      LineStaysInRange(decode, front, lines[|lines| - 1]);
    }
  }

  lemma LineStaysInRange(decode: Bytes -> string, r: Reader, line: Bytes)
    requires InRange(r.totals)
    ensures InRange(ReadLine(MetadataReading(decode), r, line).totals)
  {
    var s := Run(MetadataRules(decode), Before, r.doc + Payload(line) + ['\n']);
    if s.After? {
      DocumentStaysInRange(decode, r.totals, s.table);
    }
  }

  /** Over any stream at all, every reported count lies between 0 and 2^31 - 1, and an event carries
      an output count only when its input count was read and consistent. */
  lemma StreamStaysInRange(decode: Bytes -> string, stream: Bytes, provider: string, model: string)
    ensures var t := StreamTotals(MetadataReading(decode), stream);
            var e := BuildEvent(provider, model, t);
            && InRange(t)
            && IsCount(e.inputTokens) && IsOptionalCount(e.outputTokens) && IsCount(e.cacheCreationTokens) && IsCount(e.cacheReadTokens)
            && (e.outputTokens.Some? ==> t.hasInput && !t.invalid)
  {
    var how := MetadataReading(decode);
    LinesStayInRange(decode, Split(stream).complete);
    LineStaysInRange(decode, ReadLines(how, Split(stream).complete), Split(stream).rest);
  }

  /** What a whole response body reports when it is one document. */
  function BodyTotals(how: Reading, body: Bytes): UsageTotals {
    Finish(how, NO_USAGE, Run(how.scan, Before, body))
  }

  /** Bodies that differ only in scalars outside the allowlist report the same totals. */
  lemma BodyTotalsIgnoreContent(how: Reading, p: Bytes, lead: Bytes, root: Json, trail: Bytes,
                                q: Bytes, lead': Bytes, root': Json, trail': Bytes)
    requires how.scan.container("")
    requires IsDocumentOf(p, lead, root, trail) && IsDocumentOf(q, lead', root', trail')
    requires Redact(how.scan, root, "") == Redact(how.scan, root', "")
    ensures BodyTotals(how, p) == BodyTotals(how, q)
  {
    ContentIsDiscarded(how.scan, p, lead, root, trail, q, lead', root', trail');
  }

  // ----- the sink -----

  class SseSink {
    const how: Reading
    const acc: Accumulator
    var parser: MetadataJson
    var prefix: Bytes
    var data: bool
    var ignore: bool
    var lineBytes: nat
    ghost var stream: Bytes  // everything written so far
    ghost var reader: Reader // what the finished lines of the stream leave
    ghost var line: Bytes    // its unfinished line

    ghost predicate Valid()
      reads this, acc, parser
    {
      Stands() && reader == ReadLines(how, Split(stream).complete) && line == Split(stream).rest
    }

    /** The sink's own state agrees with the lines so far. */
    ghost predicate Stands()
      reads this, acc, parser
    {
      && parser.rules == how.scan && parser.Valid()
      && LineFits(line)
      && acc.Totals() == reader.totals
      && parser.Shape() == Run(how.scan, Before, reader.doc + Payload(line))
    }

    /** The line flags agree with the part of the line read so far. */
    ghost predicate FlagsFit(line: Bytes)
      reads this
    {
      && prefix <= line
      && data == IsData(line) && ignore == (!(line <= DATA) && !IsData(line))
      && (!data && !ignore ==> prefix == line)
      && (|line| == 1 ==> prefix == line)
    }

    ghost predicate LineFits(line: Bytes)
      reads this
    {
      lineBytes == |line| && FlagsFit(line)
    }

    constructor (how: Reading)
      ensures Valid() && stream == [] && this.how == how
      ensures fresh(acc) && fresh(parser)
    {
      this.how := how;
      acc := new Accumulator();
      parser := new MetadataJson(how.scan);
      prefix, data, ignore, lineBytes := [], false, false, 0;
      stream, reader, line := [], Reader(NO_USAGE, []), [];
    }

    /** Compares a line, byte by byte, with the data prefix; `i` is where its payload goes on. */
    method MatchPrefix(ghost line: Bytes, p: Bytes) returns (i: nat)
      requires FlagsFit(line) && !ignore
      modifies this`prefix, this`data, this`ignore
      ensures FlagsFit(line + p)
      ensures data ==> i <= |p| && Payload(line + p) == Payload(line) + p[i..]
    {
      i := 0;
      if data {
        DataStays(line, p, 0);
        return;
      }
      while i < |p| && !data
        invariant 0 <= i <= |p| && prefix == line + p[..i]
        invariant !ignore && data == IsData(prefix) && (data ==> i > 0 && |prefix| == |DATA|)
        invariant prefix <= DATA
      {
        assert p[..i + 1] == p[..i] + [p[i]];
        prefix := prefix + [p[i]];
        i := i + 1;
        if !(prefix <= DATA) {
          ignore := true;
          MismatchStays(line, p, i);
          return;
        }
        if |prefix| == |DATA| {
          data := true;
        }
      }
      assert line + p[..i] + p[i..] == line + p;
      if data { DataStays(line, p, i); }
    }

    /** More bytes of a line. */
    method ExtendLine(p: Bytes)
      requires Stands()
      modifies this`prefix, this`data, this`ignore, this`lineBytes, this`line, parser
      ensures Stands() && line == old(line) + p
    {
      ghost var before := line;
      line := line + p;
      lineBytes := lineBytes + |p|;
      if ignore {
        IgnoredStays(before, p);
        return;
      }
      var i := MatchPrefix(before, p);
      if data {
        PayloadMore(reader.doc, Payload(before), p[i..], Payload(line));
        Feed(reader.doc + Payload(before), p[i..]);
      }
    }

    method Feed(ghost text: Bytes, p: Bytes)
      requires parser.Valid() && parser.rules == how.scan && parser.Shape() == Run(how.scan, Before, text)
      modifies parser
      ensures parser.Valid() && parser.Shape() == Run(how.scan, Before, text + p)
    {
      RunConcat(how.scan, Before, text, p);
      parser.Write(p);
    }

    /** A chunk without a line feed extends the current line. */
    method WriteLine(p: Bytes)
      requires Valid() && '\n' !in p
      modifies this`prefix, this`data, this`ignore, this`lineBytes, this`line, this`stream, parser
      ensures Valid() && stream == old(stream) + p
    {
      ExtendLine(p);
      SplitMore(stream, p);
      stream := stream + p;
    }

    /** Between lines, the sink stands where `next` does. */
    ghost predicate Rests(next: Reader)
      reads this, acc, parser
    {
      parser.rules == how.scan && parser.Valid() && acc.Totals() == next.totals && parser.Shape() == Run(how.scan, Before, next.doc)
    }

    /** The end of a data line: a finished or bad document is settled and dropped. */
    method EndData()
      requires Stands() && data
      modifies this`parser, acc, parser
      ensures Rests(ReadLine(how, reader, line))
      ensures parser == old(parser) || fresh(parser)
    {
      Feed(reader.doc + Payload(line), ['\n']);
      if parser.done || parser.bad {
        ObserveParser();
        parser := new MetadataJson(how.scan);
      }
    }

    /** The end of a line that carries no data: a blank one drops the document. */
    method EndOther()
      requires Stands() && !data
      modifies this`parser
      ensures Rests(ReadLine(how, reader, line))
      ensures parser == old(parser) || fresh(parser)
    {
      NoPayload(reader.doc, line);
      if lineBytes == 0 || (lineBytes == 1 && prefix == ['\r']) {
        parser := new MetadataJson(how.scan);
      }
    }

    /** Begins an empty line. */
    method StartLine(ghost next: Reader)
      requires Rests(next)
      modifies this`prefix, this`data, this`ignore, this`lineBytes, this`line, this`reader
      ensures Stands() && line == [] && reader == next
    {
      NoPayload(next.doc, []);
      reader, line := next, [];
      prefix, data, ignore, lineBytes := [], false, false, 0;
    }

    /** The end of a line: feed the line feed, and settle or drop the document. */
    method EndLine()
      requires Stands()
      modifies this`prefix, this`data, this`ignore, this`lineBytes, this`line, this`reader, this`parser, acc, parser
      ensures Stands() && line == [] && reader == ReadLine(how, old(reader), old(line))
      ensures parser == old(parser) || fresh(parser)
    {
      ghost var next := ReadLine(how, reader, line);
      if data {
        EndData();
      } else {
        EndOther();
      }
      StartLine(next);
    }

    method FinishLine()
      requires Valid()
      modifies this, acc, parser
      ensures Valid() && stream == old(stream) + ['\n'] && reader == ReadLine(how, old(reader), old(line))
      ensures parser == old(parser) || fresh(parser)
    {
      LineEnds(how, stream);
      EndLine();
      stream := stream + ['\n'];
    }

    method ObserveParser()
      requires parser.Valid() && parser.rules == how.scan
      modifies acc
      ensures acc.Totals() == Finish(how, old(acc.Totals()), parser.Shape())
    {
      if !parser.done || parser.bad { return; }
      acc.Observe(how.wire(parser.values));
    }

    /** Reads up to and including the next line feed of `p` after `i`. */
    method WriteOne(p: Bytes, i: nat) returns (next: nat)
      requires Valid() && i < |p|
      modifies this, acc, parser
      ensures i < next <= |p| && Valid() && stream == old(stream) + p[i..next]
      ensures parser == old(parser) || fresh(parser)
    {
      var n := IndexOf(p, i);
      WriteLine(p[i..n]);
      next := n;
      if n < |p| {
        FinishAt(p, i, n, old(stream));
        next := n + 1;
      }
    }

    method FinishAt(p: Bytes, i: nat, n: nat, ghost before: Bytes)
      requires Valid() && i <= n < |p| && p[n] == '\n' && stream == before + p[i..n]
      modifies this, acc, parser
      ensures Valid() && stream == before + p[i..n + 1]
      ensures parser == old(parser) || fresh(parser)
    {
      CutAt(before, p, i, n);
      FinishLine();
    }

    /** Reads a chunk: after it, the sink stands where one write of the whole stream would leave it. */
    method Write(p: Bytes)
      requires Valid()
      modifies this, acc, parser
      ensures Valid() && stream == old(stream) + p
      ensures parser == old(parser) || fresh(parser)
    {
      var i := 0;
      while i < |p|
        invariant 0 <= i <= |p|
        invariant Valid() && stream == old(stream) + p[..i]
        invariant parser == old(parser) || fresh(parser)
      {
        var next := WriteOne(p, i);
        JoinAt(old(stream), p, i, next);
        i := next;
      }
      assert p[..i] == p;
    }

    /** The totals, with the current line taken as ended. */
    method Totals() returns (t: UsageTotals)
      requires Valid()
      modifies this, acc, parser
      ensures t == StreamTotals(how, old(stream))
      ensures Valid() && stream == old(stream) + ['\n']
      ensures parser == old(parser) || fresh(parser)
    {
      FinishLine();
      t := acc.Totals();
    }
  }

  lemma CutAt(stream: Bytes, p: Bytes, i: nat, n: nat)
    requires i <= n < |p| && p[n] == '\n'
    ensures stream + p[i..n] + ['\n'] == stream + p[i..n + 1]
  {
    assert p[i..n] + [p[n]] == p[i..n + 1];
  }

  lemma JoinAt(stream: Bytes, p: Bytes, i: nat, n: nat)
    requires i <= n <= |p|
    ensures stream + p[..i] + p[i..n] == stream + p[..n]
  {
    assert p[..i] + p[i..n] == p[..n];
  }

  lemma PayloadMore(doc: Bytes, payload: Bytes, p: Bytes, whole: Bytes)
    requires whole == payload + p
    ensures doc + payload + p == doc + whole
  {
  }

  lemma NoPayload(doc: Bytes, line: Bytes)
    requires !IsData(line)
    ensures doc + Payload(line) == doc
  {
  }

  lemma LineEnds(how: Reading, stream: Bytes)
    ensures Split(stream + ['\n']).rest == []
    ensures ReadLines(how, Split(stream + ['\n']).complete) == ReadLine(how, ReadLines(how, Split(stream).complete), Split(stream).rest)
  {
    SplitLine(stream);
    ReadLinesMore(how, Split(stream).complete, Split(stream).rest);
  }

  /** The first line feed at or after `i`, or the end. */
  method IndexOf(p: Bytes, i: nat) returns (n: nat)
    requires i <= |p|
    ensures i <= n <= |p| && '\n' !in p[i..n] && (n < |p| ==> p[n] == '\n')
  {
    n := i;
    while n < |p| && p[n] != '\n'
      invariant i <= n <= |p| && '\n' !in p[i..n]
    {
      n := n + 1;
    }
  }

  lemma IgnoredStays(line: Bytes, p: Bytes)
    requires !(line <= DATA) && !IsData(line)
    ensures !(line + p <= DATA) && !IsData(line + p)
  {
  }

  lemma MismatchStays(line: Bytes, p: Bytes, i: nat)
    requires i <= |p| && !(line + p[..i] <= DATA) && |line + p[..i]| <= |DATA|
    ensures !(line + p <= DATA) && !IsData(line + p)
  {
    assert line + p[..i] + p[i..] == line + p;
    IgnoredStays(line + p[..i], p[i..]);
  }

  lemma DataStays(line: Bytes, p: Bytes, i: nat)
    requires i <= |p| && IsData(line + p[..i]) && (i > 0 ==> |line + p[..i]| == |DATA|) && (i > 0 ==> !IsData(line))
    ensures IsData(line + p) && Payload(line + p) == Payload(line) + p[i..]
  {
    assert line + p[..i] + p[i..] == line + p;
  }

  /** Any way of cutting a stream into chunks reports the same totals, twice in a row. */
  method DrainChunks(how: Reading, chunks: seq<Bytes>) returns (first: UsageTotals, second: UsageTotals)
    ensures first == second == StreamTotals(how, Concat(chunks))
  {
    var sink := new SseSink(how);
    for i := 0 to |chunks|
      invariant sink.Valid() && sink.stream == Concat(chunks[..i])
      invariant sink.how == how && fresh(sink) && fresh(sink.acc) && fresh(sink.parser)
    {
      sink.Write(chunks[i]);
      assert chunks[..i + 1][..i] == chunks[..i];
    }
    assert chunks[..|chunks|] == chunks;
    TotalsIdempotent(how, sink.stream);
    first := sink.Totals();
    second := sink.Totals();
  }

  function Concat(chunks: seq<Bytes>): Bytes {
    if chunks == [] then [] else Concat(chunks[..|chunks| - 1]) + chunks[|chunks| - 1]
  }
}
