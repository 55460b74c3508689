/** The streaming metadata scanner as a function of the bytes read so far.
    Unlike the scanner, this form keeps every token whole; MetadataScanner.dfy refines it with bounded storage. */
module Scanner {
  import opened JsonGrammar

  /** What the scanner takes as given: how a quoted token decodes, and the two allowlists. */
  datatype Rules = Rules(decode: Bytes -> string, container: string -> bool, scalar: string -> bool)

  /** What an open group waits for. */
  datatype Stage = Opened | AfterComma | AfterKey(key: string) | AfterColon(key: string) | AfterValue

  datatype Frame = Frame(kind: Kind, path: string, stage: Stage)

  datatype Escape = Unescaped | Escaped | Hex(left: nat)

  datatype Mode =
    | Between
    | Quoted(raw: Bytes, escape: Escape, isKey: bool, path: string)
    | Bare(raw: Bytes, path: string)

  type Table = map<string, Bytes>

  datatype State =
    | Before
    | Inside(frames: seq<Frame>, table: Table, mode: Mode)
    | After(table: Table)
    | Bad

  /** The path of everything below a group that is not allowlisted. */
  const HIDDEN: string := "!"

  function Top(frames: seq<Frame>): Frame
    requires |frames| > 0
  {
    frames[|frames| - 1]
  }

  function Retop(frames: seq<Frame>, stage: Stage): seq<Frame>
    requires |frames| > 0
  {
    frames[|frames| - 1 := Top(frames).(stage := stage)]
  }

  function Join(path: string, key: string): string {
    if path == HIDDEN then HIDDEN
    else if path == "" then key
    else path + "." + key
  }

  /** The name a child of `frame` has: its key in an object, "*" in an array. */
  function ChildKey(frame: Frame): string {
    if frame.kind.Array? then "*"
    else if frame.stage.AfterKey? || frame.stage.AfterColon? then frame.stage.key
    else ""
  }

  function ChildPath(frame: Frame): string {
    Join(frame.path, ChildKey(frame))
  }

  predicate WantsKey(frame: Frame) {
    frame.kind.Object? && (frame.stage.Opened? || frame.stage.AfterComma?)
  }

  predicate WantsValue(frame: Frame) {
    if frame.kind.Array? then frame.stage.Opened? || frame.stage.AfterComma? else frame.stage.AfterColon?
  }

  predicate HasSuffix(s: string, suffix: string) {
    |s| >= |suffix| && s[|s| - |suffix|..] == suffix
  }

  predicate IsUsagePath(path: string) {
    path == "usage" || HasSuffix(path, ".usage")
  }

  function GroupPath(rules: Rules, path: string): string {
    if rules.container(path) then path else HIDDEN
  }

  /** An object at a usage path is recorded as the two characters {}. */
  function MarkUsage(kind: Kind, path: string, table: Table): Table {
    if kind.Object? && IsUsagePath(path) then table[path := "{}"] else table
  }

  function KeyOf(rules: Rules, raw: Bytes): string {
    if |raw| <= MAX_SCALAR then rules.decode(raw) else HIDDEN
  }

  function Keep(rules: Rules, path: string, raw: Bytes, table: Table): Table {
    if rules.scalar(path) && |raw| <= MAX_SCALAR then table[path := raw] else table
  }

  predicate EndsLiteral(b: char) {
    IsSpace(b) || b == ',' || b == '}' || b == ']'
  }

  /** Closes a pending literal: it must be valid and fit. */
  function Settle(rules: Rules, s: State): State {
    if s.Inside? && s.mode.Bare? then
      if |s.mode.raw| <= MAX_SCALAR && IsLiteral(s.mode.raw)
      then s.(mode := Between, table := Keep(rules, s.mode.path, s.mode.raw, s.table))
      else Bad
    else s
  }

  predicate Valid(s: State) {
    s.Inside? ==> |s.frames| > 0 && (s.mode.Quoted? && s.mode.isKey ==> Top(s.frames).kind.Object?)
  }

  function Step(rules: Rules, s: State, b: char): (r: State)
    requires Valid(s)
    ensures Valid(r)
  {
    match s
    case Bad => Bad
    case Before => if IsSpace(b) then Before else if b == '{' then Inside([Frame(Object, "", Opened)], map[], Between) else Bad
    case After(_) => if IsSpace(b) then s else Bad
    case Inside(_, _, mode) =>
      match mode
      case Quoted(_, _, _, _) => StepQuoted(rules, s, b)
      case Between => StepBetween(rules, s, b)
      case Bare(raw, path) =>
        if EndsLiteral(b)
        then (var t := Settle(rules, s); if t.Bad? then Bad else StepBetween(rules, t, b))
        else s.(mode := Bare(raw + [b], path))
  }

  function StepQuoted(rules: Rules, s: State, b: char): (r: State)
    requires Valid(s) && s.Inside? && s.mode.Quoted?
    ensures Valid(r)
  {
    var Quoted(before, escape, isKey, path) := s.mode;
    var raw := before + [b];
    match escape
    case Hex(left) =>
      if IsHex(b) then s.(mode := Quoted(raw, if left <= 1 then Unescaped else Hex(left - 1), isKey, path)) else Bad
    case Escaped =>
      if b == 'u' then s.(mode := Quoted(raw, Hex(4), isKey, path))
      else if IsSimpleEscape(b) then s.(mode := Quoted(raw, Unescaped, isKey, path))
      else Bad
    case Unescaped =>
      if b == '\\' then s.(mode := Quoted(raw, Escaped, isKey, path))
      else if b < ' ' then Bad
      else if b != '"' then s.(mode := Quoted(raw, Unescaped, isKey, path))
      else if isKey then Inside(Retop(s.frames, AfterKey(KeyOf(rules, raw))), s.table, Between)
      else Inside(s.frames, Keep(rules, path, raw, s.table), Between)
  }

  function StepBetween(rules: Rules, s: State, b: char): (r: State)
    requires Valid(s) && s.Inside? && s.mode.Between?
    ensures Valid(r)
  {
    var top := Top(s.frames);
    if IsSpace(b) then s
    else if b == End(top.kind) then
      if !top.stage.Opened? && !top.stage.AfterValue? then Bad
      else if |s.frames| == 1 then After(s.table)
      else s.(frames := s.frames[..|s.frames| - 1])
    else if top.stage.AfterValue? then
      if b == ',' then s.(frames := Retop(s.frames, AfterComma)) else Bad
    else if top.stage.AfterKey? then
      if b == ':' then s.(frames := Retop(s.frames, AfterColon(top.stage.key))) else Bad
    else if WantsKey(top) then
      if b == '"' then s.(mode := Quoted([b], Unescaped, true, "")) else Bad
    else StartValue(rules, s, b)
  }

  function StartValue(rules: Rules, s: State, b: char): (r: State)
    requires Valid(s) && s.Inside? && s.mode.Between?
    ensures Valid(r)
  {
    var path := ChildPath(Top(s.frames));
    var frames := Retop(s.frames, AfterValue);
    if b == '"' then Inside(frames, s.table, Quoted([b], Unescaped, false, path))
    else if b == '{' || b == '[' then
      if |s.frames| >= MAX_DEPTH then Bad
      else
        var kind := if b == '{' then Object else Array;
        var inner := GroupPath(rules, path);
        Inside(frames + [Frame(kind, inner, Opened)], MarkUsage(kind, inner, s.table), Between)
    else Inside(frames, s.table, Bare([b], path))
  }

  /** The state after reading all of `p` from `s`. */
  function Run(rules: Rules, s: State, p: Bytes): (r: State)
    requires Valid(s)
    ensures Valid(r)
  {
    if p == [] then s else Step(rules, Run(rules, s, p[..|p| - 1]), p[|p| - 1])
  }
}
