/** The scanner finishes on every document of the grammar, and its table is what the tree stores.
    Together with ScannerAccepts.dfy: the inputs it finishes on are exactly the documents. */
module ScannerReads {
  import opened JsonGrammar
  import opened Scanner
  import ScannerAccepts

  // ----- what a tree stores, in document order -----

  function ItemKey(rules: Rules, item: Item): string {
    match item.name
    case None => "*"
    case Some(n) => KeyOf(rules, n.raw)
  }

  /** The table after a value at `path`. */
  function Store(rules: Rules, v: Json, path: string, table: Table): Table {
    match v
    case Text(raw) => Keep(rules, path, raw, table)
    case Literal(raw) => Keep(rules, path, raw, table)
    case Group(kind, _, items) =>
      var inner := GroupPath(rules, path);
      StoreItems(rules, items, inner, MarkUsage(kind, inner, table))
  }

  function StoreItems(rules: Rules, items: Items, path: string, table: Table): Table {
    match items
    case Nil => table
    case Snoc(front, item) =>
      Store(rules, item.value, Join(path, ItemKey(rules, item)), StoreItems(rules, front, path, table))
  }

  /** The table of a whole document, whose root is an object at the empty path. */
  function Stored(rules: Rules, root: Json): Table
    requires root.Group?
  {
    StoreItems(rules, root.items, "", map[])
  }

  // ----- running over concatenations -----

  lemma RunThenOne(rules: Rules, s: State, a: Bytes, b: char)
    requires Valid(s)
    ensures Run(rules, s, a + [b]) == Step(rules, Run(rules, s, a), b)
  {
    assert (a + [b])[..|a|] == a;
  }

  lemma {:induction false} RunConcat(rules: Rules, s: State, a: Bytes, b: Bytes)
    requires Valid(s)
    ensures Run(rules, s, a + b) == Run(rules, Run(rules, s, a), b)
  {
    if b == [] {
      assert a + b == a;
    } else {
      var b', c := b[..|b| - 1], b[|b| - 1];
      assert b == b' + [c] && a + b == (a + b') + [c];
      RunConcat(rules, s, a, b');
      RunThenOne(rules, s, a + b', c);
      RunThenOne(rules, Run(rules, s, a), b', c);
    }
  }

  lemma RunOne(rules: Rules, s: State, b: char)
    requires Valid(s)
    ensures Run(rules, s, [b]) == Step(rules, s, b)
  {
    assert [] + [b] == [b];
    RunThenOne(rules, s, [], b);
  }

  lemma RunOneThen(rules: Rules, s: State, b: char, t: Bytes)
    requires Valid(s)
    ensures Run(rules, s, [b] + t) == Run(rules, Step(rules, s, b), t)
  {
    RunConcat(rules, s, [b], t);
    RunOne(rules, s, b);
  }

  // ----- whitespace and pending literals -----

  predicate Resting(s: State) {
    s.Inside? && s.mode.Between?
  }

  /** A byte that ends a literal acts on the settled state. */
  lemma StepSettles(rules: Rules, s: State, b: char)
    requires Valid(s) && EndsLiteral(b) && Resting(Settle(rules, s))
    ensures Valid(Settle(rules, s))
    ensures Step(rules, s, b) == StepBetween(rules, Settle(rules, s), b)
  {
  }

  lemma {:induction false} RunBlank(rules: Rules, s: State, t: Bytes)
    requires Valid(s) && IsBlank(t) && Resting(Settle(rules, s))
    ensures Settle(rules, Run(rules, s, t)) == Settle(rules, s)
    ensures Resting(s) ==> Run(rules, s, t) == s
  {
    if t != [] {
      RunBlank(rules, s, t[..|t| - 1]);
      StepSettles(rules, Run(rules, s, t[..|t| - 1]), t[|t| - 1]);
    }
  }

  // ----- tokens -----

  /** What a string token becomes when its closing quote arrives. */
  function Close(rules: Rules, frames: seq<Frame>, table: Table, raw: Bytes, isKey: bool, path: string): State
    requires |frames| > 0
  {
    if isKey then Inside(Retop(frames, AfterKey(KeyOf(rules, raw))), table, Between)
    else Inside(frames, Keep(rules, path, raw, table), Between)
  }

  /** Only an unescaped quote can be the last byte of a string token. */
  lemma LastByte(escape: Escape, b: char)
    requires ScannerAccepts.Completes(escape, [b])
    ensures escape.Unescaped? && b == '"'
  {
    assert [b][1..] == [];
    assert !IsStringTail([]) && !IsHexTail(4, []);
    if escape.Hex? {
      assert !IsHexTail(escape.left - 1, []);
    }
  }

  /** Any other byte leaves a token that completes with what follows. */
  lemma InnerByte(rules: Rules, s: State, b: char, rest: Bytes) returns (r: State)
    requires Valid(s) && s.Inside? && s.mode.Quoted? && ScannerAccepts.Completes(s.mode.escape, [b] + rest) && rest != []
    ensures r == Step(rules, s, b) && Valid(r) && r.Inside? && r.frames == s.frames && r.table == s.table
    ensures r.mode.Quoted? && r.mode.raw == s.mode.raw + [b] && r.mode.isKey == s.mode.isKey && r.mode.path == s.mode.path
    ensures ScannerAccepts.Completes(r.mode.escape, rest)
  {
    var t := [b] + rest;
    assert t[1..] == rest;
    if s.mode.escape.Unescaped? { assert t[2..] == rest[1..]; }
    if s.mode.escape.Hex? { assert IsHexTail(s.mode.escape.left - 1, rest); }
    r := StepQuoted(rules, s, b);
  }

  lemma FinalQuote(rules: Rules, s: State, t: Bytes)
    requires Valid(s) && s.Inside? && s.mode.Quoted? && s.mode.escape.Unescaped? && t == ['"']
    ensures Run(rules, s, t) == Close(rules, s.frames, s.table, s.mode.raw + t, s.mode.isKey, s.mode.path)
  {
    RunOne(rules, s, '"');
  }

  lemma {:induction false} RunQuoted(rules: Rules, s: State, t: Bytes)
    requires Valid(s) && s.Inside? && s.mode.Quoted? && ScannerAccepts.Completes(s.mode.escape, t)
    ensures Run(rules, s, t) == Close(rules, s.frames, s.table, s.mode.raw + t, s.mode.isKey, s.mode.path)
    decreases |t|
  {
    var b, rest := t[0], t[1..];
    assert t == [b] + rest;
    if rest == [] {
      assert t == [b];
      LastByte(s.mode.escape, b);
      FinalQuote(rules, s, t);
    } else {
      var r := InnerByte(rules, s, b, rest);
      Regroup(s.mode.raw, b, rest);
      RunQuoted(rules, r, rest);
      RunOneThen(rules, s, b, rest);
    }
  }

  lemma Regroup(a: Bytes, b: char, c: Bytes)
    ensures a + [b] + c == a + ([b] + c)
  {
  }

  lemma DigitRunWhole(t: Bytes)
    requires DigitRun(t) == |t|
    ensures forall i :: 0 <= i < |t| ==> IsDigit(t[i])
  {
  }

  predicate IsNumberByte(b: char) {
    IsDigit(b) || b == '-' || b == '+' || b == '.' || b == 'e' || b == 'E'
  }

  lemma ExponentBytes(t: Bytes)
    requires IsExponent(t)
    ensures forall i :: 0 <= i < |t| ==> IsNumberByte(t[i])
  {
    if t != [] {
      var signed := |t| > 1 && (t[1] == '+' || t[1] == '-');
      var digits := if signed then t[2..] else t[1..];
      DigitRunWhole(digits);
      forall i | 0 <= i < |t| ensures IsNumberByte(t[i]) {
        if signed {
          if i >= 2 { assert t[i] == digits[i - 2]; }
        } else if i >= 1 {
          assert t[i] == digits[i - 1];
        }
      }
    }
  }

  lemma FractionBytes(t: Bytes)
    requires IsFraction(t)
    ensures forall i :: 0 <= i < |t| ==> IsNumberByte(t[i])
  {
    if |t| > 0 && t[0] == '.' {
      var n := DigitRun(t[1..]);
      var rest := t[1 + n..];
      ExponentBytes(rest);
      forall i | 0 <= i < |t| ensures IsNumberByte(t[i]) {
        if 1 <= i < 1 + n {
          assert t[i] == t[1..][i - 1];
        } else if i >= 1 + n {
          assert t[i] == rest[i - 1 - n];
        }
      }
    } else {
      ExponentBytes(t);
    }
  }

  lemma UnsignedBytes(t: Bytes)
    requires IsUnsigned(t)
    ensures |t| > 0 && IsDigit(t[0])
    ensures forall i :: 0 <= i < |t| ==> IsNumberByte(t[i])
  {
    var n := DigitRun(t);
    FractionBytes(t[n..]);
    forall i | 0 <= i < |t| ensures IsNumberByte(t[i]) {
      if i >= n { assert t[i] == t[n..][i - n]; }
    }
  }

  /** No byte of a literal ends it, and none opens a string or a group. */
  lemma LiteralBytes(t: Bytes)
    requires IsLiteral(t)
    ensures |t| > 0
    ensures forall i :: 0 <= i < |t| ==> !EndsLiteral(t[i]) && t[i] != '"' && t[i] != '{' && t[i] != '['
  {
    if IsNumber(t) {
      if t[0] == '-' {
        UnsignedBytes(t[1..]);
        forall i | 1 <= i < |t| ensures IsNumberByte(t[i]) {
          assert t[i] == t[1..][i - 1];
        }
      } else {
        UnsignedBytes(t);
      }
    }
  }

  lemma {:induction false} RunBare(rules: Rules, s: State, t: Bytes)
    requires Valid(s) && s.Inside? && s.mode.Bare?
    requires forall i :: 0 <= i < |t| ==> !EndsLiteral(t[i])
    ensures Run(rules, s, t) == s.(mode := Bare(s.mode.raw + t, s.mode.path))
  {
    if t == [] {
      assert s.mode.raw + t == s.mode.raw;
    } else {
      RunBare(rules, s, t[..|t| - 1]);
      assert s.mode.raw + t[..|t| - 1] + [t[|t| - 1]] == s.mode.raw + t;
    }
  }

  lemma RunScalar(rules: Rules, s: State, v: Json)
    requires Valid(s) && Resting(s) && WantsValue(Top(s.frames)) && !v.Group? && WellFormed(v) && Fits(v, 0)
    ensures Settle(rules, Run(rules, s, JsonText(v)))
            == Inside(Retop(s.frames, AfterValue), Store(rules, v, ChildPath(Top(s.frames)), s.table), Between)
  {
    if v.Literal? {
      RunLiteral(rules, s, v.raw);
    } else {
      RunString(rules, s, v.raw);
    }
  }

  lemma RunString(rules: Rules, s: State, t: Bytes)
    requires Valid(s) && Resting(s) && WantsValue(Top(s.frames)) && IsString(t)
    ensures Run(rules, s, t)
            == Inside(Retop(s.frames, AfterValue), Keep(rules, ChildPath(Top(s.frames)), t, s.table), Between)
  {
    assert ['"'] + t[1..] == t;
    RunOneThen(rules, s, '"', t[1..]);
    var r := Inside(Retop(s.frames, AfterValue), s.table, Quoted(['"'], Unescaped, false, ChildPath(Top(s.frames))));
    assert StartValue(rules, s, '"') == r;
    RunQuoted(rules, r, t[1..]);
  }

  lemma RunLiteral(rules: Rules, s: State, t: Bytes)
    requires Valid(s) && Resting(s) && WantsValue(Top(s.frames)) && IsLiteral(t) && |t| <= MAX_SCALAR
    ensures Settle(rules, Run(rules, s, t))
            == Inside(Retop(s.frames, AfterValue), Keep(rules, ChildPath(Top(s.frames)), t, s.table), Between)
  {
    LiteralBytes(t);
    RunBareToken(rules, s, t);
    SettleBare(rules, Retop(s.frames, AfterValue), s.table, t, ChildPath(Top(s.frames)));
  }

  lemma RunBareToken(rules: Rules, s: State, t: Bytes)
    requires Valid(s) && Resting(s) && WantsValue(Top(s.frames)) && |t| > 0
    requires forall i :: 0 <= i < |t| ==> !EndsLiteral(t[i]) && t[i] != '"' && t[i] != '{' && t[i] != '['
    ensures Run(rules, s, t) == Inside(Retop(s.frames, AfterValue), s.table, Bare(t, ChildPath(Top(s.frames))))
  {
    assert [t[0]] + t[1..] == t;
    RunOneThen(rules, s, t[0], t[1..]);
    var r := Inside(Retop(s.frames, AfterValue), s.table, Bare([t[0]], ChildPath(Top(s.frames))));
    assert StartValue(rules, s, t[0]) == r;
    RunBare(rules, r, t[1..]);
  }

  lemma SettleBare(rules: Rules, frames: seq<Frame>, table: Table, t: Bytes, path: string)
    requires |frames| > 0 && IsLiteral(t) && |t| <= MAX_SCALAR
    ensures Settle(rules, Inside(frames, table, Bare(t, path))) == Inside(frames, Keep(rules, path, t, table), Between)
  {
  }

  /** The state in which the value of `item` starts. */
  function Named(rules: Rules, s: State, item: Item): State
    requires s.Inside? && |s.frames| > 0
  {
    match item.name
    case None => s
    case Some(n) => Inside(Retop(s.frames, AfterColon(KeyOf(rules, n.raw))), s.table, Between)
  }

  lemma NamedWantsValue(rules: Rules, s: State, item: Item)
    requires Valid(s) && Resting(s) && (Top(s.frames).stage.Opened? || Top(s.frames).stage.AfterComma?)
    requires WellFormedItem(item, Top(s.frames).kind)
    ensures var r := Named(rules, s, item);
            && Valid(r) && Resting(r) && r.table == s.table && |r.frames| == |s.frames| && WantsValue(Top(r.frames))
            && ChildPath(Top(r.frames)) == Join(Top(s.frames).path, ItemKey(rules, item))
            && Retop(r.frames, AfterValue) == Retop(s.frames, AfterValue)
  {
  }

  /** From the start of an item to its value. */
  lemma RunName(rules: Rules, s: State, item: Item)
    requires Valid(s) && Resting(s) && (Top(s.frames).stage.Opened? || Top(s.frames).stage.AfterComma?)
    requires WellFormedItem(item, Top(s.frames).kind)
    ensures Run(rules, s, item.before + NameText(item.name)) == Named(rules, s, item)
  {
    RunConcat(rules, s, item.before, NameText(item.name));
    RunBlank(rules, s, item.before);
    if item.name.Some? {
      RunMemberName(rules, s, item.name.value);
    }
  }

  lemma RunMemberName(rules: Rules, s: State, n: Name)
    requires Valid(s) && Resting(s) && WantsKey(Top(s.frames)) && IsName(Some(n), Object)
    ensures Run(rules, s, NameText(Some(n))) == Inside(Retop(s.frames, AfterColon(KeyOf(rules, n.raw))), s.table, Between)
  {
    var keyed := Inside(Retop(s.frames, AfterKey(KeyOf(rules, n.raw))), s.table, Between);
    var colon := Inside(Retop(s.frames, AfterColon(KeyOf(rules, n.raw))), s.table, Between);
    RunKey(rules, s, n.raw);
    RunConcat(rules, s, n.raw, n.gap);
    RunBlank(rules, keyed, n.gap);
    RunThenOne(rules, s, n.raw + n.gap, ':');
    assert StepBetween(rules, keyed, ':') == colon;
    RunConcat(rules, s, n.raw + n.gap + [':'], n.after);
    RunBlank(rules, colon, n.after);
  }

  lemma RunKey(rules: Rules, s: State, t: Bytes)
    requires Valid(s) && Resting(s) && WantsKey(Top(s.frames)) && IsString(t)
    ensures Run(rules, s, t) == Inside(Retop(s.frames, AfterKey(KeyOf(rules, t))), s.table, Between)
  {
    assert ['"'] + t[1..] == t;
    RunOneThen(rules, s, '"', t[1..]);
    var r := Inside(s.frames, s.table, Quoted(['"'], Unescaped, true, ""));
    assert StepBetween(rules, s, '"') == r;
    RunQuoted(rules, r, t[1..]);
  }

  // ----- values -----

  lemma {:induction false} RunValue(rules: Rules, s: State, v: Json)
    requires Valid(s) && Resting(s) && |s.frames| <= MAX_DEPTH && WantsValue(Top(s.frames))
    requires WellFormed(v) && Fits(v, MAX_DEPTH - |s.frames|)
    ensures Settle(rules, Run(rules, s, JsonText(v)))
            == Inside(Retop(s.frames, AfterValue), Store(rules, v, ChildPath(Top(s.frames)), s.table), Between)
    decreases v, 0
  {
    if v.Group? {
      var open := OpenGroup(rules, s, v);
      RunBody(rules, open, v);
      RunBracket(rules, s, v, open);
    } else {
      RunScalar(rules, s, v);
    }
  }

  lemma OpenGroup(rules: Rules, s: State, v: Json) returns (open: State)
    requires v.Group? && Valid(s) && Resting(s) && |s.frames| < MAX_DEPTH && WantsValue(Top(s.frames))
    ensures open == StartValue(rules, s, Begin(v.kind)) && open == Step(rules, s, Begin(v.kind))
    ensures Valid(open) && Resting(open) && |open.frames| == |s.frames| + 1
    ensures Top(open.frames).stage.Opened? && Top(open.frames).kind == v.kind
  {
    open := StartValue(rules, s, Begin(v.kind));
  }

  function BodyText(v: Json): Bytes
    requires v.Group?
  {
    if v.items.Nil? then v.pad else ItemsText(v.items)
  }

  /** What the inside of a group leaves, before its closing bracket. */
  function BodyState(rules: Rules, s: State, v: Json): State
    requires v.Group? && s.Inside? && |s.frames| > 0
  {
    Inside(Retop(s.frames, if v.items.Nil? then Opened else AfterValue),
           StoreItems(rules, v.items, Top(s.frames).path, s.table), Between)
  }

  /** The closing bracket drops the group's frame. */
  lemma ClosingBracket(rules: Rules, outer: seq<Frame>, frame: Frame, table: Table)
    requires |outer| > 0 && (frame.stage.Opened? || frame.stage.AfterValue?)
    ensures StepBetween(rules, Inside(outer + [frame], table, Between), End(frame.kind)) == Inside(outer, table, Between)
  {
    assert (outer + [frame])[..|outer|] == outer;
  }

  /** The body of a group leaves the frames below it as they were, marked. */
  lemma BodyFrames(rules: Rules, s: State, v: Json, open: State) returns (frame: Frame)
    requires v.Group? && Valid(s) && Resting(s) && |s.frames| < MAX_DEPTH && WantsValue(Top(s.frames))
    requires open == StartValue(rules, s, Begin(v.kind))
    ensures frame.kind == v.kind && (frame.stage.Opened? || frame.stage.AfterValue?)
    ensures BodyState(rules, open, v)
            == Inside(Retop(s.frames, AfterValue) + [frame], Store(rules, v, ChildPath(Top(s.frames)), s.table), Between)
  {
    frame := Top(BodyState(rules, open, v).frames);
  }

  /** The brackets around a body that reads as it should. */
  lemma RunBracket(rules: Rules, s: State, v: Json, open: State)
    requires v.Group? && Valid(s) && Resting(s) && |s.frames| < MAX_DEPTH && WantsValue(Top(s.frames))
    requires open == StartValue(rules, s, Begin(v.kind)) && open == Step(rules, s, Begin(v.kind))
    requires Settle(rules, Run(rules, open, BodyText(v))) == BodyState(rules, open, v)
    ensures Run(rules, s, JsonText(v))
            == Inside(Retop(s.frames, AfterValue), Store(rules, v, ChildPath(Top(s.frames)), s.table), Between)
  {
    var body := BodyText(v);
    var frame := BodyFrames(rules, s, v, open);
    ClosingBracket(rules, Retop(s.frames, AfterValue), frame, BodyState(rules, open, v).table);
    RunOneThen(rules, s, Begin(v.kind), body);
    RunThenOne(rules, s, [Begin(v.kind)] + body, End(v.kind));
    StepSettles(rules, Run(rules, open, body), End(v.kind));
  }

  /** The inside of a group, up to its closing bracket. */
  lemma {:induction false} RunBody(rules: Rules, s: State, v: Json)
    requires v.Group? && WellFormed(v)
    requires Valid(s) && Resting(s) && |s.frames| <= MAX_DEPTH && Top(s.frames).stage.Opened? && Top(s.frames).kind == v.kind
    requires ItemsFit(v.items, MAX_DEPTH - |s.frames|)
    ensures Settle(rules, Run(rules, s, BodyText(v))) == BodyState(rules, s, v)
    decreases v.items, 2
  {
    if v.items.Nil? {
      RunBlank(rules, s, v.pad);
      assert Retop(s.frames, Opened) == s.frames;
    } else {
      RunItems(rules, s, v.items);
    }
  }

  lemma {:induction false} RunItems(rules: Rules, s: State, items: Items)
    requires Valid(s) && Resting(s) && |s.frames| <= MAX_DEPTH && Top(s.frames).stage.Opened?
    requires items.Snoc? && WellFormedItems(items, Top(s.frames).kind)
    requires ItemsFit(items, MAX_DEPTH - |s.frames|)
    ensures Settle(rules, Run(rules, s, ItemsText(items)))
            == Inside(Retop(s.frames, AfterValue), StoreItems(rules, items, Top(s.frames).path, s.table), Between)
    decreases items, 1
  {
    if items.front.Nil? {
      assert Separated(items.front) + ItemText(items.item) == ItemText(items.item);
      RunItem(rules, s, items.item);
    } else {
      RunItems(rules, s, items.front);
      var front := Run(rules, s, ItemsText(items.front));
      var next := RunComma(rules, s, items.front);
      RunConcat(rules, s, Separated(items.front), ItemText(items.item));
      RunItem(rules, next, items.item);
    }
  }

  lemma CommaStep(rules: Rules, frames: seq<Frame>, table: Table)
    requires |frames| > 0
    ensures StepBetween(rules, Inside(Retop(frames, AfterValue), table, Between), ',') == Inside(Retop(frames, AfterComma), table, Between)
    ensures Top(Retop(frames, AfterComma)) == Top(frames).(stage := AfterComma)
    ensures Retop(Retop(frames, AfterComma), AfterValue) == Retop(frames, AfterValue)
  {
  }

  lemma RunComma(rules: Rules, s: State, items: Items) returns (next: State)
    requires Valid(s) && s.Inside? && items.Snoc?
    requires var r := Settle(rules, Run(rules, s, ItemsText(items))); Resting(r) && r.frames == Retop(s.frames, AfterValue)
    ensures next == Run(rules, s, Separated(items)) && Valid(next)
    ensures next == Inside(Retop(s.frames, AfterComma), Settle(rules, Run(rules, s, ItemsText(items))).table, Between)
    ensures Top(next.frames) == Top(s.frames).(stage := AfterComma) && |next.frames| == |s.frames|
    ensures Retop(next.frames, AfterValue) == Retop(s.frames, AfterValue)
  {
    var front := Run(rules, s, ItemsText(items));
    RunThenOne(rules, s, ItemsText(items), ',');
    CommaStep(rules, s.frames, Settle(rules, front).table);
    StepSettles(rules, front, ',');
    next := Step(rules, front, ',');
  }

  lemma {:induction false} RunItem(rules: Rules, s: State, item: Item)
    requires Valid(s) && Resting(s) && |s.frames| <= MAX_DEPTH
    requires WellFormedItem(item, Top(s.frames).kind)
    requires Top(s.frames).stage.Opened? || Top(s.frames).stage.AfterComma?
    requires Fits(item.value, MAX_DEPTH - |s.frames|)
    ensures Settle(rules, Run(rules, s, ItemText(item)))
            == Inside(Retop(s.frames, AfterValue),
                      Store(rules, item.value, Join(Top(s.frames).path, ItemKey(rules, item)), s.table), Between)
    decreases item, 0
  {
    var head := item.before + NameText(item.name);
    RunName(rules, s, item);
    NamedWantsValue(rules, s, item);
    var named := Named(rules, s, item);
    RunValue(rules, named, item.value);
    RunConcat(rules, s, head, JsonText(item.value));
    RunConcat(rules, s, head + JsonText(item.value), item.after);
    RunBlank(rules, Run(rules, s, head + JsonText(item.value)), item.after);
  }

  // ----- documents -----

  lemma {:induction false} RunLead(rules: Rules, s: State, t: Bytes)
    requires IsBlank(t) && (s.Before? || s.After?)
    ensures Run(rules, s, t) == s
  {
    if t != [] { RunLead(rules, s, t[..|t| - 1]); }
  }

  /** Reading a document's text ends with the table its tree stores. */
  lemma DocumentIsAccepted(rules: Rules, p: Bytes, lead: Bytes, v: Json, trail: Bytes)
    requires IsDocumentOf(p, lead, v, trail)
    ensures Run(rules, Before, p) == After(Stored(rules, v))
  {
    var open := Inside([Frame(Object, "", Opened)], map[], Between);
    var body := BodyText(v);
    RunConcat(rules, Before, lead + JsonText(v), trail);
    RunConcat(rules, Before, lead, JsonText(v));
    RunLead(rules, Before, lead);
    RunOneThen(rules, Before, '{', body);
    RunBody(rules, open, v);
    RunThenOne(rules, Before, ['{'] + body, '}');
    StepSettles(rules, Run(rules, open, body), '}');
    RunLead(rules, After(Stored(rules, v)), trail);
  }

  /** The scanner finishes on an input exactly when it is a document within the limits. */
  lemma AcceptsExactlyDocuments(rules: Rules, p: Bytes)
    ensures Run(rules, Before, p).After? <==> IsDocument(p)
  {
    if Run(rules, Before, p).After? {
      ScannerAccepts.AcceptedIsDocument(rules, p);
    }
    if IsDocument(p) {
      var lead: Bytes, v: Json, trail: Bytes :| IsDocumentOf(p, lead, v, trail);
      DocumentIsAccepted(rules, p, lead, v, trail);
    }
  }
}
