/** Cutting a text at its line feeds, and putting lines together again. */
module TextLines {
  import opened JsonGrammar

  datatype Lines = Lines(complete: seq<Bytes>, rest: Bytes)

  /** The stream cut at its line feeds; `rest` is the unfinished last line. */
  function Split(stream: Bytes): Lines {
    if stream == [] then Lines([], []) else Extended(Split(stream[..|stream| - 1]), stream[|stream| - 1])
  }

  function Extended(lines: Lines, b: char): Lines {
    if b == '\n' then Lines(lines.complete + [lines.rest], []) else Lines(lines.complete, lines.rest + [b])
  }

  function Unlines(lines: seq<Bytes>): Bytes {
    if lines == [] then [] else Unlines(lines[..|lines| - 1]) + lines[|lines| - 1] + ['\n']
  }

  lemma UnlinesMore(lines: seq<Bytes>, line: Bytes)
    ensures Unlines(lines + [line]) == Unlines(lines) + line + ['\n']
  {
    assert (lines + [line])[..|lines|] == lines;
  }

  predicate HasNoFeed(line: Bytes) {
    forall i :: 0 <= i < |line| ==> line[i] != '\n'
  }

  predicate HaveNoFeeds(lines: Lines) {
    HasNoFeed(lines.rest) && forall i :: 0 <= i < |lines.complete| ==> HasNoFeed(lines.complete[i])
  }

  /** What a cut has to be: the lines put together are the text, and none holds a line feed. */
  predicate IsCut(stream: Bytes, lines: Lines) {
    stream == Unlines(lines.complete) + lines.rest && HaveNoFeeds(lines)
  }

  lemma TextMore(front: Bytes, lines: Lines, b: char)
    requires front == Unlines(lines.complete) + lines.rest
    ensures front + [b] == Unlines(Extended(lines, b).complete) + Extended(lines, b).rest
  {
    UnlinesMore(lines.complete, lines.rest);
    Regroup(Unlines(lines.complete), lines.rest, b);
  }

  lemma FeedsMore(lines: Lines, b: char)
    requires HaveNoFeeds(lines)
    ensures HaveNoFeeds(Extended(lines, b))
  {
  }

  lemma LastOff(stream: Bytes)
    requires stream != []
    ensures stream[..|stream| - 1] + [stream[|stream| - 1]] == stream
  {
  }

  /** The cut loses nothing and leaves no line feed inside a line. */
  lemma {:induction false} SplitCuts(stream: Bytes)
    ensures IsCut(stream, Split(stream))
  {
    if stream != [] {
      SplitCuts(stream[..|stream| - 1]);
      TextMore(stream[..|stream| - 1], Split(stream[..|stream| - 1]), stream[|stream| - 1]);
      FeedsMore(Split(stream[..|stream| - 1]), stream[|stream| - 1]);
      LastOff(stream);
    }
  }

  lemma Regroup(a: Bytes, b: Bytes, c: char)
    ensures a + b + [c] == a + (b + [c])
    ensures a + b + [c] + [] == a + b + [c]
  {
  }

  lemma SplitOne(stream: Bytes, b: char)
    ensures Split(stream + [b]) == Extended(Split(stream), b)
  {
    assert (stream + [b])[..|stream|] == stream;
  }

  lemma {:induction false} SplitMore(stream: Bytes, p: Bytes)
    requires '\n' !in p
    ensures Split(stream + p) == Split(stream).(rest := Split(stream).rest + p)
  {
    if p == [] {
      assert stream + p == stream && Split(stream).rest + p == Split(stream).rest;
    } else {
      var most, last := p[..|p| - 1], p[|p| - 1];
      SplitMore(stream, most);
      SplitOne(stream + most, last);
      LastOff(p);
      Regroup(stream, most, last);
      Regroup(Split(stream).rest, most, last);
    }
  }

  lemma SplitLine(stream: Bytes)
    ensures Split(stream + ['\n']) == Lines(Split(stream).complete + [Split(stream).rest], [])
  {
    assert (stream + ['\n'])[..|stream|] == stream;
  }

  /** Whole lines come back as they were put together. */
  lemma {:induction false} SplitUnlines(lines: seq<Bytes>)
    requires forall i :: 0 <= i < |lines| ==> '\n' !in lines[i]
    ensures Split(Unlines(lines)) == Lines(lines, [])
  {
    if lines != [] {
      var front, last := lines[..|lines| - 1], lines[|lines| - 1];
      SplitUnlines(front);
      SplitMore(Unlines(front), last);
      SplitLine(Unlines(front) + last);
      assert lines == front + [last] && [] + last == last;
    }
  }
}
