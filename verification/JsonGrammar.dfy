/** The JSON grammar of RFC 8259, sections 2 to 7, as concrete syntax trees and their text.
    A byte is a `char`; every result holds for all chars, the 256 byte values among them. */
module JsonGrammar {

  type Bytes = string

  datatype Option<+T> = None | Some(value: T)

  datatype Kind = Object | Array

  /** A JSON value with the exact text of its tokens and of the whitespace around them. */
  datatype Json =
    | Text(raw: Bytes)                                // a string, quotes included
    | Literal(raw: Bytes)                             // true, false, null or a number
    | Group(kind: Kind, pad: Bytes, items: Items)     // `pad` is the inside of an empty group

  /** The members of an object or the elements of an array, separated by commas. */
  datatype Items = Nil | Snoc(front: Items, item: Item)

  /** An array element has no name; an object member has one. */
  datatype Item = Item(before: Bytes, name: Option<Name>, value: Json, after: Bytes)

  /** A member name with the whitespace on either side of its colon. */
  datatype Name = Name(raw: Bytes, gap: Bytes, after: Bytes)

  // ----- section 2: structural characters and whitespace -----

  predicate IsSpace(b: char) {
    b == ' ' || b == '\t' || b == '\r' || b == '\n'
  }

  predicate IsBlank(t: Bytes) {
    forall i :: 0 <= i < |t| ==> IsSpace(t[i])
  }

  function Begin(kind: Kind): char { if kind.Object? then '{' else '[' }

  function End(kind: Kind): char { if kind.Object? then '}' else ']' }

  // ----- section 7: strings -----

  predicate IsHex(b: char) {
    '0' <= b <= '9' || 'a' <= b <= 'f' || 'A' <= b <= 'F'
  }

  predicate IsSimpleEscape(b: char) {
    b == '"' || b == '\\' || b == '/' || b == 'b' || b == 'f' || b == 'n' || b == 'r' || b == 't'
  }

  /** `t` is a sequence of string characters followed by the closing quote. */
  predicate IsStringTail(t: Bytes)
    decreases |t|, 0
  {
    && |t| > 0
    && if t[0] == '"' then |t| == 1
       else if t[0] == '\\' then
         |t| > 1 && if t[1] == 'u' then IsHexTail(4, t[2..]) else IsSimpleEscape(t[1]) && IsStringTail(t[2..])
       else t[0] >= ' ' && IsStringTail(t[1..])
  }

  /** `t` is `n` hexadecimal digits and then the rest of a string. */
  predicate IsHexTail(n: nat, t: Bytes)
    decreases |t|, n + 1
  {
    if n == 0 then IsStringTail(t) else |t| > 0 && IsHex(t[0]) && IsHexTail(n - 1, t[1..])
  }

  predicate IsString(t: Bytes) {
    |t| > 0 && t[0] == '"' && IsStringTail(t[1..])
  }

  // ----- sections 3 and 6: literal names and numbers -----

  predicate IsDigit(b: char) { '0' <= b <= '9' }

  /** The length of the longest run of digits at the front of `t`. */
  function DigitRun(t: Bytes): (n: nat)
    ensures n <= |t|
    ensures forall i :: 0 <= i < n ==> IsDigit(t[i])
  {
    if |t| > 0 && IsDigit(t[0]) then 1 + DigitRun(t[1..]) else 0
  }

  /** [ exp ] */
  predicate IsExponent(t: Bytes) {
    t == [] || (
      && (t[0] == 'e' || t[0] == 'E')
      && var digits := if |t| > 1 && (t[1] == '+' || t[1] == '-') then t[2..] else t[1..];
         |digits| > 0 && DigitRun(digits) == |digits|)
  }

  /** [ frac ] [ exp ] */
  predicate IsFraction(t: Bytes) {
    if |t| > 0 && t[0] == '.'
    then var n := DigitRun(t[1..]); n > 0 && IsExponent(t[1 + n..])
    else IsExponent(t)
  }

  /** int [ frac ] [ exp ], where int has no leading zero */
  predicate IsUnsigned(t: Bytes) {
    var n := DigitRun(t);
    n > 0 && (t[0] == '0' ==> n == 1) && IsFraction(t[n..])
  }

  predicate IsNumber(t: Bytes) {
    |t| > 0 && IsUnsigned(if t[0] == '-' then t[1..] else t)
  }

  predicate IsLiteral(t: Bytes) {
    t == "true" || t == "false" || t == "null" || IsNumber(t)
  }

  // ----- sections 2 to 5: text of a tree, and which trees are derivations -----

  function JsonText(v: Json): Bytes {
    match v
    case Text(raw) => raw
    case Literal(raw) => raw
    case Group(kind, pad, items) => [Begin(kind)] + (if items.Nil? then pad else ItemsText(items)) + [End(kind)]
  }

  function ItemsText(items: Items): Bytes
    decreases items, 0
  {
    match items
    case Nil => []
    case Snoc(front, item) => Separated(front) + ItemText(item)
  }

  /** The items before the next one, with the comma that announces it. */
  function Separated(items: Items): Bytes
    decreases items, 1
  {
    if items.Nil? then [] else ItemsText(items) + [',']
  }

  function NameText(name: Option<Name>): Bytes {
    match name
    case None => []
    case Some(n) => n.raw + n.gap + [':'] + n.after
  }

  function ItemText(item: Item): Bytes {
    item.before + NameText(item.name) + JsonText(item.value) + item.after
  }

  predicate IsName(name: Option<Name>, kind: Kind) {
    match name
    case None => kind.Array?
    case Some(n) => kind.Object? && IsString(n.raw) && IsBlank(n.gap) && IsBlank(n.after)
  }

  predicate WellFormed(v: Json) {
    match v
    case Text(raw) => IsString(raw)
    case Literal(raw) => IsLiteral(raw)
    case Group(kind, pad, items) => IsBlank(pad) && WellFormedItems(items, kind)
  }

  predicate WellFormedItems(items: Items, kind: Kind) {
    match items
    case Nil => true
    case Snoc(front, item) => WellFormedItems(front, kind) && WellFormedItem(item, kind)
  }

  predicate WellFormedItem(item: Item, kind: Kind) {
    IsBlank(item.before) && IsName(item.name, kind) && WellFormed(item.value) && IsBlank(item.after)
  }

  // ----- the limits of internal/node/meter/jsonscan.go -----

  const MAX_SCALAR: nat := 1024
  const MAX_DEPTH: nat := 64

  /** Groups nest at most `room` deep in `v`, and no literal is longer than the scanner can hold. */
  predicate Fits(v: Json, room: nat) {
    match v
    case Text(_) => true
    case Literal(raw) => |raw| <= MAX_SCALAR
    case Group(_, _, items) => room > 0 && ItemsFit(items, room - 1)
  }

  predicate ItemsFit(items: Items, room: nat) {
    match items
    case Nil => true
    case Snoc(front, item) => ItemsFit(front, room) && Fits(item.value, room)
  }

  /** `p` is the text of `v` with whitespace around it, and `v` is an object within the limits. */
  predicate IsDocumentOf(p: Bytes, lead: Bytes, v: Json, trail: Bytes) {
    && IsBlank(lead) && IsBlank(trail)
    && v.Group? && v.kind.Object? && WellFormed(v) && Fits(v, MAX_DEPTH)
    && p == lead + JsonText(v) + trail
  }

  ghost predicate IsDocument(p: Bytes) {
    exists lead: Bytes, v: Json, trail: Bytes :: IsDocumentOf(p, lead, v, trail)
  }
}
