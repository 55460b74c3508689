/** The scanner as the program keeps it: frames, flags and one bounded token, changed byte by byte.
    Every method is tied to the scanner of Scanner.dfy, which keeps each token whole. */
module MetadataScanner {
  import opened JsonGrammar
  import opened Scanner
  import opened ScannerContent

  datatype JsonFrame = JsonFrame(kind: char, state: char, path: string, key: string)

  predicate IsFrame(f: JsonFrame) {
    && (f.kind == '{' || f.kind == '[')
    && (f.state == 'e' || f.state == 'v' || f.state == 'c' || (f.kind == '{' && (f.state == ':' || f.state == 'x')))
  }

  function StageOf(f: JsonFrame): Stage {
    match f.state
    case 'e' => Opened
    case 'v' => AfterComma
    case ':' => AfterKey(f.key)
    case 'x' => AfterColon(f.key)
    case _ => AfterValue
  }

  function FrameOf(f: JsonFrame): Frame {
    Frame(if f.kind == '{' then Object else Array, f.path, StageOf(f))
  }

  function FramesOf(frames: seq<JsonFrame>): (r: seq<Frame>)
    ensures |r| == |frames|
    ensures forall i :: 0 <= i < |frames| ==> r[i] == FrameOf(frames[i])
  {
    seq(|frames|, i requires 0 <= i < |frames| => FrameOf(frames[i]))
  }

  lemma RetopFrames(frames: seq<JsonFrame>, f: JsonFrame)
    requires |frames| > 0 && f.kind == frames[|frames| - 1].kind && f.path == frames[|frames| - 1].path
    ensures FramesOf(frames[|frames| - 1 := f]) == Retop(FramesOf(frames), StageOf(f))
  {
  }

  /** The part of a token that is stored. */
  function Clip(raw: Bytes): Bytes {
    if |raw| <= MAX_SCALAR then raw else raw[..MAX_SCALAR]
  }

  class MetadataJson {
    const rules: Rules
    var frames: seq<JsonFrame>
    var values: map<string, Bytes>
    var started: bool
    var done: bool
    var bad: bool
    var inString: bool
    var escaped: bool
    var isKey: bool
    var literal: bool
    var capture: bool
    var overflow: bool
    var unicodeLeft: nat
    var token: Bytes
    var tokenPath: string
    ghost var raw: Bytes  // the whole of the current token

    ghost predicate TokenFits()
      reads this
    {
      if capture then token == Clip(raw) && overflow == (|raw| > MAX_SCALAR) else !overflow
    }

    ghost predicate InToken()
      reads this
    {
      inString || literal
    }

    /** The token never outgrows its limit; the rest is agreed on until the document turns bad. */
    ghost predicate Valid()
      reads this
    {
      |token| <= MAX_SCALAR && (bad || IsConsistent())
    }

    ghost predicate IsConsistent()
      reads this
    {
      && (started && !done ==> |frames| > 0)
      && (done ==> started && frames == [])
      && (!started ==> values == map[] && frames == [])
      && (forall i :: 0 <= i < |frames| ==> IsFrame(frames[i]))
      && (InToken() ==> started && !done && TokenFits())
      && !(inString && literal)
      && (literal ==> capture)
      && (inString ==> capture == (isKey || rules.scalar(tokenPath)))
      && (inString && isKey ==> frames[|frames| - 1].kind == '{')
      && (escaped || unicodeLeft > 0 ==> inString && !(escaped && unicodeLeft > 0))
    }

    ghost function EscapeOf(): Escape
      reads this
    {
      if unicodeLeft > 0 then Hex(unicodeLeft) else if escaped then Escaped else Unescaped
    }

    ghost function ModeOf(): Mode
      reads this
    {
      if literal then Bare(raw, tokenPath)
      else if inString then Quoted(raw, EscapeOf(), isKey, if isKey then "" else tokenPath)
      else Between
    }

    /** The scanner state these fields stand for. */
    ghost function Shape(): (s: State)
      requires Valid()
      reads this
      ensures Scanner.Valid(s)
    {
      if bad then Bad
      else if !started then Before
      else if done then After(values)
      else Inside(FramesOf(frames), values, ModeOf())
    }

    constructor (rules: Rules)
      ensures Valid() && Shape() == Before && this.rules == rules
    {
      this.rules := rules;
      frames, values := [], map[];
      started, done, bad := false, false, false;
      inString, escaped, isKey, literal, capture, overflow := false, false, false, false, false, false;
      unicodeLeft, token, tokenPath, raw := 0, [], "", [];
    }

    /** The path of the value about to start. */
    function ChildPath(): (path: string)
      requires Valid() && !bad && started && !done
      reads this
      ensures var top := frames[|frames| - 1];
              top.kind == '[' || top.state == ':' || top.state == 'x' ==> path == Scanner.ChildPath(FrameOf(top))
    {
      var f := frames[|frames| - 1];
      if f.path == HIDDEN then HIDDEN
      else
        var key := if f.kind == '[' then "*" else f.key;
        if f.path == "" then key else f.path + "." + key
    }

    method SetState(state: char)
      requires |frames| > 0
      modifies this`frames
      ensures frames == old(frames)[|old(frames)| - 1 := old(frames)[|old(frames)| - 1].(state := state)]
    {
      frames := frames[|frames| - 1 := frames[|frames| - 1].(state := state)];
    }

    method AppendToken(b: char)
      requires |token| <= MAX_SCALAR && TokenFits()
      modifies this`token, this`overflow, this`raw
      ensures |token| <= MAX_SCALAR && TokenFits() && raw == old(raw) + [b]
    {
      raw := raw + [b];
      if !capture { return; }
      if |token| >= MAX_SCALAR {
        overflow := true;
        return;
      }
      token := token + [b];
    }

    method StartToken(b: char, path: string, keep: bool)
      requires |token| <= MAX_SCALAR
      modifies this`token, this`overflow, this`raw, this`capture, this`tokenPath
      ensures |token| <= MAX_SCALAR && TokenFits() && raw == [b] && capture == keep && tokenPath == path
    {
      overflow, capture := false, keep;
      token, tokenPath := [], path;
      raw := [];
      AppendToken(b);
    }

    method SaveToken()
      modifies this`values
      ensures values == if capture && !overflow then old(values)[tokenPath := token] else old(values)
    {
      if !capture || overflow { return; }
      values := values[tokenPath := token];
    }

    method FinishLiteral()
      requires Valid() && !bad && literal
      modifies this`literal, this`bad, this`values
      ensures Valid() && !literal && Shape() == Settle(rules, old(Shape()))
    {
      literal := false;
      if overflow || !IsLiteral(token) {
        bad := true;
        return;
      }
      if rules.scalar(tokenPath) {
        SaveToken();
      }
    }

    /** One byte inside a string. */
    method QuotedByte(b: char)
      requires Valid() && !bad && inString
      modifies this
      ensures Valid() && Shape() == Step(rules, old(Shape()), b)
    {
      if unicodeLeft > 0 || escaped {
        EscapedByte(b);
        return;
      }
      AppendToken(b);
      if b == '\\' {
        escaped := true;
        return;
      }
      if b < ' ' {
        bad := true;
        return;
      }
      if b != '"' { return; }
      CloseString();
    }

    /** One byte of an escape sequence. */
    method EscapedByte(b: char)
      requires Valid() && !bad && inString && (unicodeLeft > 0 || escaped)
      modifies this`token, this`overflow, this`raw, this`bad, this`unicodeLeft, this`escaped
      ensures Valid() && Shape() == StepQuoted(rules, old(Shape()), b)
    {
      AppendToken(b);
      if unicodeLeft > 0 {
        if !IsHex(b) { bad := true; }
        unicodeLeft := unicodeLeft - 1;
        return;
      }
      escaped := false;
      if b == 'u' {
        unicodeLeft := 4;
      } else if !IsSimpleEscape(b) {
        bad := true;
      }
    }

    /** The closing quote of a string has been read. */
    method CloseString()
      requires Valid() && !bad && inString && !escaped && unicodeLeft == 0
      modifies this
      ensures Valid() && !bad && !inString && !literal
      ensures Shape() == if old(isKey) then Inside(Retop(old(FramesOf(frames)), AfterKey(KeyOf(rules, old(raw)))), old(values), Between)
                         else Inside(old(FramesOf(frames)), Keep(rules, old(tokenPath), old(raw), old(values)), Between)
    {
      inString := false;
      if isKey {
        var key := HIDDEN;
        if !overflow {
          key := rules.decode(token);
        }
        var f := frames[|frames| - 1];
        frames := frames[|frames| - 1 := f.(key := key, state := ':')];
        assert FramesOf(frames) == Retop(old(FramesOf(frames)), AfterKey(key));
      } else {
        SaveToken();
      }
    }

    /** One byte outside every token. */
    method PlainByte(b: char)
      requires Valid() && !bad && !InToken()
      modifies this
      ensures Valid() && Shape() == Step(rules, old(Shape()), b)
    {
      if b == ' ' || b == '\t' || b == '\r' || b == '\n' { return; }
      if done {
        bad := true;
        return;
      }
      if !started {
        if b != '{' {
          bad := true;
          return;
        }
        started := true;
        frames := [JsonFrame('{', 'e', "", "")];
        assert FramesOf(frames) == [Frame(Object, "", Opened)];
        return;
      }
      InnerByte(b);
    }

    /** The closing bracket of the innermost group. */
    method CloseGroup(b: char)
      requires Valid() && !bad && !InToken() && started && !done && b == End(FrameOf(frames[|frames| - 1]).kind)
      modifies this`bad, this`frames, this`done
      ensures Valid() && Shape() == StepBetween(rules, old(Shape()), b)
    {
      ghost var was := FramesOf(frames);
      var f := frames[|frames| - 1];
      if f.state != 'e' && f.state != 'c' {
        bad := true;
        return;
      }
      frames := frames[..|frames| - 1];
      assert FramesOf(frames) == was[..|was| - 1];
      if |frames| == 0 {
        done := true;
      }
    }

    /** A comma after a value, or a colon after a key. */
    method Punctuate(b: char)
      requires Valid() && !bad && !InToken() && started && !done && !IsSpace(b)
      requires var f := frames[|frames| - 1]; b != End(FrameOf(f).kind) && (f.state == 'c' || f.state == ':')
      modifies this`bad, this`frames
      ensures Valid() && Shape() == StepBetween(rules, old(Shape()), b)
    {
      var f := frames[|frames| - 1];
      RetopFrames(frames, f.(state := if f.state == 'c' then 'v' else 'x'));
      if f.state == 'c' {
        if b != ',' {
          bad := true;
          return;
        }
        SetState('v');
        return;
      }
      if b != ':' {
        bad := true;
        return;
      }
      SetState('x');
    }

    /** One byte between the tokens of an open group. */
    method InnerByte(b: char)
      requires Valid() && !bad && !InToken() && started && !done && !IsSpace(b)
      modifies this
      ensures Valid() && Shape() == StepBetween(rules, old(Shape()), b)
    {
      var f := frames[|frames| - 1];
      if (b == '}' && f.kind == '{') || (b == ']' && f.kind == '[') {
        CloseGroup(b);
        return;
      }
      if f.state == 'c' || f.state == ':' {
        Punctuate(b);
        return;
      }
      var key := f.kind == '{' && (f.state == 'e' || f.state == 'v');
      if key && b != '"' {
        bad := true;
        return;
      }
      var path := ChildPath();
      if key {
        StartKey(path);
      } else if b == '"' {
        StartString(path);
      } else {
        StartOther(b, path);
      }
    }

    /** The first byte of a group or of a literal. */
    method StartOther(b: char, path: string)
      requires Valid() && !bad && !InToken() && started && !done && b != '"'
      requires path == Scanner.ChildPath(FrameOf(frames[|frames| - 1]))
      modifies this
      ensures Valid() && Shape() == StartValue(rules, old(Shape()), b)
    {
      RetopFrames(frames, frames[|frames| - 1].(state := 'c'));
      SetState('c');
      if b == '{' || b == '[' {
        OpenGroup(b, path);
        return;
      }
      literal := true;
      StartToken(b, path, true);
    }

    /** The opening quote of a key. */
    method StartKey(path: string)
      requires Valid() && !bad && !InToken() && started && !done && WantsKey(FrameOf(frames[|frames| - 1]))
      modifies this
      ensures Valid() && Shape() == StepBetween(rules, old(Shape()), '"')
    {
      inString, isKey := true, true;
      StartToken('"', path, true);
    }

    /** The opening quote of a string value. */
    method StartString(path: string)
      requires Valid() && !bad && !InToken() && started && !done
      requires path == Scanner.ChildPath(FrameOf(frames[|frames| - 1]))
      modifies this
      ensures Valid() && Shape() == StartValue(rules, old(Shape()), '"')
    {
      RetopFrames(frames, frames[|frames| - 1].(state := 'c'));
      inString, isKey := true, false;
      StartToken('"', path, rules.scalar(path));
      SetState('c');
    }

    /** The opening bracket of a group at `path`, in a frame already marked. */
    method OpenGroup(b: char, path: string)
      requires Valid() && !bad && !InToken() && started && !done && (b == '{' || b == '[')
      modifies this`bad, this`values, this`frames
      ensures Valid()
      ensures var kind := if b == '{' then Object else Array; var inner := GroupPath(rules, path); var was := old(FramesOf(frames));
              Shape() == if |was| >= MAX_DEPTH then Bad
                         else Inside(was + [Frame(kind, inner, Opened)], MarkUsage(kind, inner, old(values)), Between)
    {
      if |frames| >= MAX_DEPTH {
        bad := true;
        return;
      }
      var inner := path;
      if !rules.container(path) {
        inner := HIDDEN;
      }
      if b == '{' && IsUsagePath(inner) {
        values := values[inner := "{}"];
      }
      ghost var was := FramesOf(frames);
      frames := frames + [JsonFrame(b, 'e', inner, "")];
      assert FramesOf(frames) == was + [FrameOf(frames[|frames| - 1])];
    }

    method WriteByte(b: char)
      requires Valid() && !bad
      modifies this
      ensures Valid() && Shape() == Step(rules, old(Shape()), b)
    {
      if literal {
        if !EndsLiteral(b) {
          AppendToken(b);
          return;
        }
        FinishLiteral();
        if bad { return; }
        PlainByte(b);
        return;
      }
      if inString {
        QuotedByte(b);
      } else {
        PlainByte(b);
      }
    }

    /** Reads all of `p`, stopping at the first byte that makes the document bad. */
    method Write(p: Bytes)
      requires Valid()
      modifies this
      ensures Valid() && Shape() == Run(rules, old(Shape()), p)
    {
      for i := 0 to |p|
        invariant Valid() && Shape() == Run(rules, old(Shape()), p[..i])
      {
        if bad {
          RunBad(rules, old(Shape()), p, i);
          return;
        }
        WriteByte(p[i]);
        assert p[..i + 1][..i] == p[..i];
      }
      assert p[..|p|] == p;
    }
  }

  lemma {:induction false} RunBad(rules: Rules, s: State, p: Bytes, i: nat)
    requires Scanner.Valid(s) && i <= |p| && Run(rules, s, p[..i]).Bad?
    ensures Run(rules, s, p).Bad?
    decreases |p| - i
  {
    if i == |p| {
      assert p[..i] == p;
    } else {
      assert p[..i + 1][..i] == p[..i];
      RunBad(rules, s, p, i + 1);
    }
  }
}
