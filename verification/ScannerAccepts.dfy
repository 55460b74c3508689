/** Every input the scanner finishes on is a document of the grammar.
    The proof keeps, beside each scanner state, the partial syntax tree of the bytes read so far. */
module ScannerAccepts {
  import opened JsonGrammar
  import opened Scanner

  /** An open group: its finished items, and the start of the next one up to its value. */
  datatype Pending = Pending(kind: Kind, items: Items, before: Bytes, name: Option<Name>)

  /** Where reading stands inside the innermost open group. */
  datatype Focus =
    | AtItem(kind: Kind, items: Items, before: Bytes)
    | InName(items: Items, before: Bytes, raw: Bytes)
    | AtColon(items: Items, before: Bytes, raw: Bytes, gap: Bytes)
    | AtMember(items: Items, before: Bytes, name: Name)
    | InValue(pending: Pending, raw: Bytes)
    | AtEnd(kind: Kind, items: Items)

  datatype Progress =
    | Waiting(lead: Bytes)
    | Reading(lead: Bytes, outer: seq<Pending>, focus: Focus)
    | Done(lead: Bytes, root: Json, trail: Bytes)

  function PendingText(p: Pending): Bytes {
    [Begin(p.kind)] + Separated(p.items) + p.before + NameText(p.name)
  }

  function OuterText(outer: seq<Pending>): Bytes {
    if outer == [] then [] else OuterText(outer[..|outer| - 1]) + PendingText(outer[|outer| - 1])
  }

  function FocusText(f: Focus): Bytes {
    match f
    case AtItem(kind, items, before) => [Begin(kind)] + Separated(items) + before
    case InName(items, before, raw) => ['{'] + Separated(items) + before + raw
    case AtColon(items, before, raw, gap) => ['{'] + Separated(items) + before + raw + gap
    case AtMember(items, before, name) => PendingText(Pending(Object, items, before, Some(name)))
    case InValue(pending, raw) => PendingText(pending) + raw
    case AtEnd(kind, items) => [Begin(kind)] + ItemsText(items)
  }

  function ProgressText(z: Progress): Bytes {
    match z
    case Waiting(lead) => lead
    case Reading(lead, outer, focus) => lead + OuterText(outer) + FocusText(focus)
    case Done(lead, root, trail) => lead + JsonText(root) + trail
  }

  predicate GoodItems(items: Items, kind: Kind, room: nat) {
    WellFormedItems(items, kind) && ItemsFit(items, room)
  }

  predicate GoodPending(p: Pending, room: nat) {
    GoodItems(p.items, p.kind, room) && IsBlank(p.before) && IsName(p.name, p.kind)
  }

  /** What may still follow a partial string token. */
  predicate Completes(escape: Escape, rest: Bytes) {
    match escape
    case Unescaped => IsStringTail(rest)
    case Escaped => |rest| > 0 && if rest[0] == 'u' then IsHexTail(4, rest[1..]) else IsSimpleEscape(rest[0]) && IsStringTail(rest[1..])
    case Hex(left) => left > 0 && IsHexTail(left, rest)
  }

  ghost predicate IsPartialString(raw: Bytes, escape: Escape) {
    && (escape.Hex? ==> escape.left > 0)
    && forall rest: Bytes :: Completes(escape, rest) ==> IsString(raw + rest)
  }

  ghost predicate FocusMatches(f: Focus, top: Frame, mode: Mode, room: nat) {
    match f
    case AtItem(kind, items, before) =>
      mode.Between? && top.kind == kind && GoodItems(items, kind, room) && IsBlank(before)
      && (if items.Nil? then top.stage.Opened? else top.stage.AfterComma?)
    case InName(items, before, raw) =>
      mode.Quoted? && mode.isKey && mode.raw == raw && IsPartialString(raw, mode.escape)
      && WantsKey(top) && GoodItems(items, Object, room) && IsBlank(before)
    case AtColon(items, before, raw, gap) =>
      mode.Between? && top.kind.Object? && top.stage.AfterKey?
      && GoodItems(items, Object, room) && IsBlank(before) && IsString(raw) && IsBlank(gap)
    case AtMember(items, before, name) =>
      mode.Between? && top.kind.Object? && top.stage.AfterColon? && GoodPending(Pending(Object, items, before, Some(name)), room)
    case InValue(pending, raw) =>
      && top.kind == pending.kind && top.stage.AfterValue? && GoodPending(pending, room)
      && !mode.Between? && mode.raw == raw
      && (mode.Quoted? ==> !mode.isKey && IsPartialString(raw, mode.escape))
    case AtEnd(kind, items) =>
      mode.Between? && top.kind == kind && top.stage.AfterValue? && items.Snoc? && GoodItems(items, kind, room)
  }

  ghost predicate OuterMatches(outer: seq<Pending>, frames: seq<Frame>) {
    && |frames| == |outer| + 1 <= MAX_DEPTH && frames[0].kind.Object?
    && forall i :: 0 <= i < |outer| ==>
         && frames[i].kind == outer[i].kind && frames[i].stage.AfterValue?
         && GoodPending(outer[i], MAX_DEPTH - i - 1)
  }

  /** The scanner state and the partial tree agree. */
  ghost predicate Matches(z: Progress, s: State) {
    match z
    case Waiting(lead) => s.Before? && IsBlank(lead)
    case Reading(lead, outer, focus) =>
      s.Inside? && IsBlank(lead) && OuterMatches(outer, s.frames)
      && FocusMatches(focus, Top(s.frames), s.mode, MAX_DEPTH - |s.frames|)
    case Done(lead, root, trail) => s.After? && IsDocumentOf(ProgressText(z), lead, root, trail)
  }

  // ----- text and frames that stay put -----

  lemma Regroup(a: Bytes, b: Bytes, c: Bytes, d: Bytes)
    ensures a + (b + c) + d == a + b + (c + d)
    ensures a + b + c + d == a + b + (c + d)
  {
  }

  /** Only the focus moves, and its text grows by the byte. */
  lemma Refocused(lead: Bytes, outer: seq<Pending>, f: Focus, f': Focus, b: char)
    requires FocusText(f') == FocusText(f) + [b]
    ensures ProgressText(Reading(lead, outer, f')) == ProgressText(Reading(lead, outer, f)) + [b]
  {
    Regroup(lead, OuterText(outer), FocusText(f), [b]);
  }

  /** A step that leaves the groups around the focus as they are. */
  lemma Moved(z: Progress, s: State, f: Focus, r: State, b: char) returns (z': Progress)
    requires z.Reading? && Matches(z, s) && r.Inside? && OuterMatches(z.outer, r.frames)
    requires FocusMatches(f, Top(r.frames), r.mode, MAX_DEPTH - |r.frames|)
    requires FocusText(f) == FocusText(z.focus) + [b]
    ensures Matches(z', r) && ProgressText(z') == ProgressText(z) + [b]
  {
    z' := z.(focus := f);
    Refocused(z.lead, z.outer, z.focus, f, b);
  }

  /** A new group opens inside the pending item. */
  lemma PushText(lead: Bytes, outer: seq<Pending>, f: Focus, p: Pending, kind: Kind)
    requires PendingText(p) == FocusText(f)
    ensures ProgressText(Reading(lead, outer + [p], AtItem(kind, Nil, []))) == ProgressText(Reading(lead, outer, f)) + [Begin(kind)]
  {
    assert (outer + [p])[..|outer|] == outer;
    assert OuterText(outer + [p]) == OuterText(outer) + PendingText(p);
    assert FocusText(AtItem(kind, Nil, [])) == [Begin(kind)];
    Regroup(lead, OuterText(outer), PendingText(p), [Begin(kind)]);
  }

  /** The innermost group closes into the pending item around it. */
  lemma PopText(lead: Bytes, outer: seq<Pending>, f: Focus, v: Json, items: Items, b: char)
    requires outer != [] && JsonText(v) == FocusText(f) + [b]
    requires var p := outer[|outer| - 1]; FocusText(AtEnd(p.kind, items)) == PendingText(p) + JsonText(v)
    ensures var p := outer[|outer| - 1];
            ProgressText(Reading(lead, outer[..|outer| - 1], AtEnd(p.kind, items))) == ProgressText(Reading(lead, outer, f)) + [b]
  {
    var p := outer[|outer| - 1];
    var rest := outer[..|outer| - 1];
    Regroup(lead, OuterText(outer), FocusText(f), [b]);
    Regroup(lead, OuterText(rest), PendingText(p), JsonText(v));
  }

  lemma OuterKept(outer: seq<Pending>, frames: seq<Frame>, stage: Stage)
    requires OuterMatches(outer, frames)
    ensures OuterMatches(outer, Retop(frames, stage))
    ensures Top(Retop(frames, stage)) == Top(frames).(stage := stage)
  {
  }

  lemma OuterPushed(outer: seq<Pending>, frames: seq<Frame>, p: Pending, frame: Frame)
    requires OuterMatches(outer, frames) && |frames| < MAX_DEPTH
    requires Top(frames).kind == p.kind && GoodPending(p, MAX_DEPTH - |frames|)
    ensures OuterMatches(outer + [p], Retop(frames, AfterValue) + [frame])
  {
    OuterKept(outer, frames, AfterValue);
    forall i | 0 <= i < |outer| + 1
      ensures (Retop(frames, AfterValue) + [frame])[i].kind == (outer + [p])[i].kind
      ensures (Retop(frames, AfterValue) + [frame])[i].stage.AfterValue?
      ensures GoodPending((outer + [p])[i], MAX_DEPTH - i - 1)
    {
      if i < |outer| {
        assert (outer + [p])[i] == outer[i];
        assert (Retop(frames, AfterValue) + [frame])[i] == frames[i];
      }
    }
  }

  lemma OuterPopped(outer: seq<Pending>, frames: seq<Frame>)
    requires OuterMatches(outer, frames) && outer != []
    ensures OuterMatches(outer[..|outer| - 1], frames[..|frames| - 1])
  {
  }

  // ----- one byte inside a string token -----

  lemma GrowString(raw: Bytes, escape: Escape, b: char, escape': Escape)
    requires IsPartialString(raw, escape)
    requires escape'.Hex? ==> escape'.left > 0
    requires forall rest: Bytes :: Completes(escape', rest) ==> Completes(escape, [b] + rest)
    ensures IsPartialString(raw + [b], escape')
  {
    forall rest: Bytes | Completes(escape', rest) ensures IsString(raw + [b] + rest) {
      assert raw + [b] + rest == raw + ([b] + rest);
    }
  }

  lemma QuotedProgress(rules: Rules, s: State, b: char)
    requires Valid(s) && s.Inside? && s.mode.Quoted? && IsPartialString(s.mode.raw, s.mode.escape)
    ensures var r := StepQuoted(rules, s, b);
            && (r.Inside? && r.mode.Quoted? ==> r.mode.raw == s.mode.raw + [b] && IsPartialString(r.mode.raw, r.mode.escape))
            && (r.Inside? && !r.mode.Quoted? ==> IsString(s.mode.raw + [b]))
  {
    var r := StepQuoted(rules, s, b);
    if r.Inside? && r.mode.Quoted? {
      forall rest: Bytes | Completes(r.mode.escape, rest) ensures Completes(s.mode.escape, [b] + rest) {
        assert ([b] + rest)[1..] == rest;
        if s.mode.escape.Unescaped? && b == '\\' && |rest| > 0 {
          assert ([b] + rest)[2..] == rest[1..];
        }
      }
      GrowString(s.mode.raw, s.mode.escape, b, r.mode.escape);
    } else if r.Inside? {
      assert Completes(Unescaped, [b]);
    }
  }

  lemma FirstQuote()
    ensures IsPartialString("\"", Unescaped)
  {
    forall rest: Bytes | IsStringTail(rest) ensures IsString("\"" + rest) {
      assert ("\"" + rest)[1..] == rest;
    }
  }

  // ----- one byte between tokens -----

  /** The group the focus describes, closed. */
  function Closed(f: Focus): Json
    requires f.AtItem? || f.AtEnd?
  {
    if f.AtItem? then Group(f.kind, f.before, Nil) else Group(f.kind, [], f.items)
  }

  lemma ClosedFits(f: Focus, top: Frame, mode: Mode, room: nat)
    requires FocusMatches(f, top, mode, room) && (f.AtEnd? || (f.AtItem? && f.items.Nil?))
    ensures WellFormed(Closed(f)) && Fits(Closed(f), room + 1)
  {
  }

  lemma ClosedText(f: Focus)
    requires (f.AtEnd? && f.items.Snoc?) || (f.AtItem? && f.items.Nil?)
    ensures JsonText(Closed(f)) == FocusText(f) + [End(f.kind)]
  {
    if f.AtItem? {
      assert [Begin(f.kind)] + Separated(Nil) + f.before == [Begin(f.kind)] + f.before;
    }
  }

  /** The next item of `p`, complete once its value is. */
  function Filled(p: Pending, v: Json): Items {
    Snoc(p.items, Item(p.before, p.name, v, []))
  }

  lemma FilledFits(p: Pending, v: Json, room: nat)
    requires GoodPending(p, room) && WellFormed(v) && Fits(v, room)
    ensures GoodItems(Filled(p, v), p.kind, room)
  {
  }

  lemma FilledText(p: Pending, v: Json)
    ensures FocusText(AtEnd(p.kind, Filled(p, v))) == PendingText(p) + JsonText(v)
  {
    var item := Item(p.before, p.name, v, []);
    assert ItemText(item) == p.before + NameText(p.name) + JsonText(v);
    assert [Begin(p.kind)] + (Separated(p.items) + ItemText(item)) == PendingText(p) + JsonText(v);
  }

  predicate Closes(z: Progress, s: State, b: char)
    requires Valid(s)
  {
    && z.Reading? && s.Inside? && s.mode.Between? && b == End(Top(s.frames).kind)
    && (Top(s.frames).stage.Opened? || Top(s.frames).stage.AfterValue?)
  }

  /** The progress after the closing bracket of the group in focus. */
  function ClosedInto(z: Progress): Progress
    requires z.Reading? && (z.focus.AtItem? || z.focus.AtEnd?)
  {
    var v := Closed(z.focus);
    if z.outer == [] then Done(z.lead, v, [])
    else
      var p := z.outer[|z.outer| - 1];
      Reading(z.lead, z.outer[..|z.outer| - 1], AtEnd(p.kind, Filled(p, v)))
  }

  lemma RootText(lead: Bytes, inside: Bytes, whole: Bytes, b: char)
    requires whole == inside + [b]
    ensures lead + [] + inside + [b] == lead + whole + []
  {
  }

  lemma ClosedIntoText(z: Progress, b: char)
    requires z.Reading? && ((z.focus.AtEnd? && z.focus.items.Snoc?) || (z.focus.AtItem? && z.focus.items.Nil?))
    requires b == End(z.focus.kind)
    ensures ProgressText(ClosedInto(z)) == ProgressText(z) + [b]
  {
    var v := Closed(z.focus);
    ClosedText(z.focus);
    if z.outer == [] {
      RootText(z.lead, FocusText(z.focus), JsonText(v), b);
    } else {
      FilledText(z.outer[|z.outer| - 1], v);
      PopText(z.lead, z.outer, z.focus, v, Filled(z.outer[|z.outer| - 1], v), b);
    }
  }

  lemma RootMatches(z: Progress, s: State, b: char)
    requires Valid(s) && Matches(z, s) && Closes(z, s, b) && z.outer == []
    ensures Matches(ClosedInto(z), After(s.table))
  {
    ClosedFits(z.focus, Top(s.frames), s.mode, MAX_DEPTH - 1);
  }

  lemma InnerMatches(z: Progress, s: State, b: char)
    requires Valid(s) && Matches(z, s) && Closes(z, s, b) && z.outer != []
    ensures Matches(ClosedInto(z), s.(frames := s.frames[..|s.frames| - 1]))
  {
    var room := MAX_DEPTH - |s.frames|;
    ClosedFits(z.focus, Top(s.frames), s.mode, room);
    FilledFits(z.outer[|z.outer| - 1], Closed(z.focus), room + 1);
    OuterPopped(z.outer, s.frames);
  }

  lemma CloseProgress(rules: Rules, z: Progress, s: State, b: char) returns (z': Progress)
    requires Valid(s) && Matches(z, s) && Closes(z, s, b)
    ensures Matches(z', StepBetween(rules, s, b))
    ensures ProgressText(z') == ProgressText(z) + [b]
  {
    z' := ClosedInto(z);
    ClosedIntoText(z, b);
    if z.outer == [] {
      RootMatches(z, s, b);
    } else {
      InnerMatches(z, s, b);
    }
  }

  /** Whitespace extends the blank before the next token. */
  function Widen(f: Focus, b: char): Focus
    requires !f.InName? && !f.InValue? && (f.AtEnd? ==> f.items.Snoc?)
  {
    match f
    case AtItem(kind, items, before) => AtItem(kind, items, before + [b])
    case AtColon(items, before, raw, gap) => AtColon(items, before, raw, gap + [b])
    case AtMember(items, before, name) => AtMember(items, before, name.(after := name.after + [b]))
    case AtEnd(kind, items) => AtEnd(kind, Snoc(items.front, items.item.(after := items.item.after + [b])))
  }

  lemma WidenName(before: Bytes, n: Name, b: char)
    ensures before + NameText(Some(n.(after := n.after + [b]))) == before + NameText(Some(n)) + [b]
  {
    assert n.raw + n.gap + [':'] + (n.after + [b]) == n.raw + n.gap + [':'] + n.after + [b];
  }

  lemma WidenItem(items: Items, b: char, kind: Kind, room: nat)
    requires items.Snoc? && GoodItems(items, kind, room) && IsSpace(b)
    ensures var wide := Snoc(items.front, items.item.(after := items.item.after + [b]));
            GoodItems(wide, kind, room) && ItemsText(wide) == ItemsText(items) + [b]
  {
    var item := items.item;
    var item' := item.(after := item.after + [b]);
    assert WellFormedItem(item, kind);
    assert WellFormedItem(item', kind);
    assert ItemText(item') == ItemText(item) + [b];
  }

  lemma WidenText(f: Focus, b: char, top: Frame, mode: Mode, room: nat)
    requires FocusMatches(f, top, mode, room) && mode.Between? && IsSpace(b)
    ensures FocusMatches(Widen(f, b), top, mode, room)
    ensures FocusText(Widen(f, b)) == FocusText(f) + [b]
  {
    match f
    case AtItem(kind, items, before) =>
    case AtColon(items, before, raw, gap) =>
    case AtMember(items, before, n) => WidenName(['{'] + Separated(items) + before, n, b);
    case AtEnd(kind, items) => WidenItem(items, b, kind, room);
  }

  function PendingOf(f: Focus): Pending
    requires f.AtItem? || f.AtMember?
  {
    if f.AtItem? then Pending(f.kind, f.items, f.before, None) else Pending(Object, f.items, f.before, Some(f.name))
  }

  /** The focus after a comma or a colon. */
  function Punctuated(f: Focus): Focus
    requires f.AtEnd? || f.AtColon?
  {
    if f.AtEnd? then AtItem(f.kind, f.items, []) else AtMember(f.items, f.before, Name(f.raw, f.gap, []))
  }

  lemma PunctuatedText(f: Focus)
    requires f.AtColon? || (f.AtEnd? && f.items.Snoc?)
    ensures FocusText(Punctuated(f)) == FocusText(f) + [if f.AtEnd? then ',' else ':']
  {
    if f.AtColon? {
      var head := ['{'] + Separated(f.items) + f.before;
      assert f.raw + f.gap + [':'] + [] == f.raw + (f.gap + [':']);
      assert head + (f.raw + (f.gap + [':'])) == head + f.raw + f.gap + [':'];
    }
  }

  lemma PunctuatedMatches(rules: Rules, f: Focus, s: State, b: char, room: nat)
    requires Valid(s) && s.Inside? && s.mode.Between? && FocusMatches(f, Top(s.frames), s.mode, room)
    requires f.AtEnd? || f.AtColon?
    requires !IsSpace(b) && b != End(Top(s.frames).kind) && !StepBetween(rules, s, b).Bad?
    ensures var r := StepBetween(rules, s, b);
            && r.Inside? && r.frames == Retop(s.frames, Top(r.frames).stage)
            && FocusMatches(Punctuated(f), Top(r.frames), r.mode, room)
            && FocusText(Punctuated(f)) == FocusText(f) + [b]
  {
    PunctuatedText(f);
  }

  lemma BetweenProgress(rules: Rules, z: Progress, s: State, b: char) returns (z': Progress)
    requires Valid(s) && Matches(z, s) && z.Reading? && s.mode.Between?
    requires !StepBetween(rules, s, b).Bad?
    ensures Matches(z', StepBetween(rules, s, b))
    ensures ProgressText(z') == ProgressText(z) + [b]
  {
    var f := z.focus;
    var room := MAX_DEPTH - |s.frames|;
    if IsSpace(b) {
      WidenText(f, b, Top(s.frames), s.mode, room);
      z' := Moved(z, s, Widen(f, b), s, b);
    } else if b == End(Top(s.frames).kind) {
      z' := CloseProgress(rules, z, s, b);
    } else if f.AtEnd? || f.AtColon? {
      var r := StepBetween(rules, s, b);
      PunctuatedMatches(rules, f, s, b, room);
      OuterKept(z.outer, s.frames, Top(r.frames).stage);
      z' := Moved(z, s, Punctuated(f), r, b);
    } else if WantsKey(Top(s.frames)) {
      z' := NameProgress(rules, z, s, b);
    } else {
      z' := StartProgress(rules, z, s, b);
    }
  }

  lemma NameProgress(rules: Rules, z: Progress, s: State, b: char) returns (z': Progress)
    requires Valid(s) && Matches(z, s) && z.Reading? && s.mode.Between? && WantsKey(Top(s.frames))
    requires !IsSpace(b) && b != '}' && !StepBetween(rules, s, b).Bad?
    ensures Matches(z', StepBetween(rules, s, b))
    ensures ProgressText(z') == ProgressText(z) + [b]
  {
    FirstQuote();
    z' := Moved(z, s, InName(z.focus.items, z.focus.before, [b]), StepBetween(rules, s, b), b);
  }

  lemma GroupProgress(rules: Rules, z: Progress, s: State, p: Pending, b: char) returns (z': Progress)
    requires Valid(s) && Matches(z, s) && z.Reading? && s.mode.Between? && !StartValue(rules, s, b).Bad?
    requires PendingText(p) == FocusText(z.focus) && p.kind == Top(s.frames).kind && GoodPending(p, MAX_DEPTH - |s.frames|)
    requires b == '{' || b == '['
    ensures Matches(z', StartValue(rules, s, b))
    ensures ProgressText(z') == ProgressText(z) + [b]
  {
    var r := StartValue(rules, s, b);
    var kind := if b == '{' then Object else Array;
    z' := Reading(z.lead, z.outer + [p], AtItem(kind, Nil, []));
    PushText(z.lead, z.outer, z.focus, p, kind);
    assert OuterMatches(z.outer + [p], r.frames) by {
      OuterPushed(z.outer, s.frames, p, Top(r.frames));
    }
    assert FocusMatches(z'.focus, Top(r.frames), r.mode, MAX_DEPTH - |r.frames|);
  }

  lemma ScalarProgress(rules: Rules, z: Progress, s: State, p: Pending, b: char) returns (z': Progress)
    requires Valid(s) && Matches(z, s) && z.Reading? && s.mode.Between?
    requires PendingText(p) == FocusText(z.focus) && p.kind == Top(s.frames).kind && GoodPending(p, MAX_DEPTH - |s.frames|)
    requires b != '{' && b != '['
    ensures Matches(z', StartValue(rules, s, b))
    ensures ProgressText(z') == ProgressText(z) + [b]
  {
    FirstQuote();
    OuterKept(z.outer, s.frames, AfterValue);
    z' := Moved(z, s, InValue(p, [b]), StartValue(rules, s, b), b);
  }

  lemma StartProgress(rules: Rules, z: Progress, s: State, b: char) returns (z': Progress)
    requires Valid(s) && Matches(z, s) && z.Reading? && s.mode.Between?
    requires WantsValue(Top(s.frames)) && !StartValue(rules, s, b).Bad?
    ensures Matches(z', StartValue(rules, s, b))
    ensures ProgressText(z') == ProgressText(z) + [b]
  {
    var p := PendingOf(z.focus);
    assert GoodPending(p, MAX_DEPTH - |s.frames|);
    if b == '{' || b == '[' {
      z' := GroupProgress(rules, z, s, p, b);
    } else {
      z' := ScalarProgress(rules, z, s, p, b);
    }
  }

  // ----- any byte -----

  lemma SettleProgress(rules: Rules, z: Progress, s: State) returns (z': Progress)
    requires Valid(s) && Matches(z, s) && s.Inside? && s.mode.Bare? && !Settle(rules, s).Bad?
    ensures Matches(z', Settle(rules, s)) && ProgressText(z') == ProgressText(z)
    ensures z'.Reading?
  {
    var Reading(lead, outer, f) := z;
    var v := Literal(f.raw);
    FilledFits(f.pending, v, MAX_DEPTH - |s.frames|);
    FilledText(f.pending, v);
    z' := Reading(lead, outer, AtEnd(f.pending.kind, Filled(f.pending, v)));
  }

  /** The token in focus, one byte longer. */
  function Longer(f: Focus, b: char): (f': Focus)
    requires f.InName? || f.InValue?
    ensures FocusText(f') == FocusText(f) + [b]
  {
    if f.InName? then InName(f.items, f.before, f.raw + [b]) else InValue(f.pending, f.raw + [b])
  }

  lemma TokenGrows(rules: Rules, f: Focus, s: State, b: char, room: nat)
    requires Valid(s) && s.Inside? && s.mode.Quoted? && FocusMatches(f, Top(s.frames), s.mode, room)
    requires var r := StepQuoted(rules, s, b); r.Inside? && r.mode.Quoted?
    ensures var r := StepQuoted(rules, s, b); r.frames == s.frames && FocusMatches(Longer(f, b), Top(s.frames), r.mode, room)
  {
    QuotedProgress(rules, s, b);
  }

  lemma NameCloses(rules: Rules, f: Focus, s: State, b: char, room: nat)
    requires Valid(s) && s.Inside? && s.mode.Quoted? && FocusMatches(f, Top(s.frames), s.mode, room) && f.InName?
    requires var r := StepQuoted(rules, s, b); r.Inside? && !r.mode.Quoted?
    ensures var r := StepQuoted(rules, s, b);
            && r.frames == Retop(s.frames, Top(r.frames).stage)
            && FocusMatches(AtColon(f.items, f.before, f.raw + [b], []), Top(r.frames), r.mode, room)
  {
    QuotedProgress(rules, s, b);
  }

  lemma StringCloses(rules: Rules, f: Focus, s: State, b: char, room: nat)
    requires Valid(s) && s.Inside? && s.mode.Quoted? && FocusMatches(f, Top(s.frames), s.mode, room) && f.InValue?
    requires var r := StepQuoted(rules, s, b); r.Inside? && !r.mode.Quoted?
    ensures var r := StepQuoted(rules, s, b); var f' := AtEnd(f.pending.kind, Filled(f.pending, Text(f.raw + [b])));
            && r.frames == s.frames && FocusMatches(f', Top(r.frames), r.mode, room)
            && FocusText(f') == FocusText(f) + [b]
  {
    QuotedProgress(rules, s, b);
    FilledFits(f.pending, Text(f.raw + [b]), room);
    FilledText(f.pending, Text(f.raw + [b]));
  }

  lemma TokenProgress(rules: Rules, z: Progress, s: State, b: char) returns (z': Progress)
    requires Valid(s) && Matches(z, s) && s.Inside? && s.mode.Quoted? && !StepQuoted(rules, s, b).Bad?
    ensures Matches(z', StepQuoted(rules, s, b))
    ensures ProgressText(z') == ProgressText(z) + [b]
  {
    var f := z.focus;
    var room := MAX_DEPTH - |s.frames|;
    var r := StepQuoted(rules, s, b);
    if r.mode.Quoted? {
      TokenGrows(rules, f, s, b, room);
      z' := Moved(z, s, Longer(f, b), r, b);
    } else if f.InName? {
      NameCloses(rules, f, s, b, room);
      OuterKept(z.outer, s.frames, Top(r.frames).stage);
      assert f.raw + [b] + [] == f.raw + [b];
      z' := Moved(z, s, AtColon(f.items, f.before, f.raw + [b], []), r, b);
    } else {
      StringCloses(rules, f, s, b, room);
      z' := Moved(z, s, AtEnd(f.pending.kind, Filled(f.pending, Text(f.raw + [b]))), r, b);
    }
  }

  lemma StepProgress(rules: Rules, z: Progress, s: State, b: char) returns (z': Progress)
    requires Valid(s) && Matches(z, s) && !Step(rules, s, b).Bad?
    ensures Matches(z', Step(rules, s, b))
    ensures ProgressText(z') == ProgressText(z) + [b]
  {
    match z
    case Waiting(lead) =>
      if IsSpace(b) {
        z' := Waiting(lead + [b]);
      } else {
        z' := Reading(lead, [], AtItem(Object, Nil, []));
        assert lead + OuterText([]) + FocusText(z'.focus) == lead + [b];
      }
    case Done(lead, root, trail) =>
      z' := Done(lead, root, trail + [b]);
      assert lead + JsonText(root) + (trail + [b]) == lead + JsonText(root) + trail + [b];
    case Reading(lead, outer, f) =>
      if s.mode.Quoted? {
        z' := TokenProgress(rules, z, s, b);
      } else if s.mode.Between? {
        z' := BetweenProgress(rules, z, s, b);
      } else if EndsLiteral(b) {
        z' := SettleProgress(rules, z, s);
        z' := BetweenProgress(rules, z', Settle(rules, s), b);
      } else {
        z' := Moved(z, s, Longer(f, b), Step(rules, s, b), b);
      }
  }

  /** Every input that is not yet rejected is the text of a partial tree the scanner state agrees with. */
  lemma {:induction false} RunProgress(rules: Rules, p: Bytes) returns (z: Progress)
    requires !Run(rules, Before, p).Bad?
    ensures Matches(z, Run(rules, Before, p)) && ProgressText(z) == p
  {
    if p == [] {
      z := Waiting([]);
    } else {
      z := RunProgress(rules, p[..|p| - 1]);
      z := StepProgress(rules, z, Run(rules, Before, p[..|p| - 1]), p[|p| - 1]);
      assert p[..|p| - 1] + [p[|p| - 1]] == p;
    }
  }

  lemma AcceptedIsDocument(rules: Rules, p: Bytes)
    requires Run(rules, Before, p).After?
    ensures IsDocument(p)
  {
    var z := RunProgress(rules, p);
    assert IsDocumentOf(p, z.lead, z.root, z.trail);
  }
}
