/** What a body reports, in terms of its tree: the decimal numbers and short texts that stand last at each place. */
module UsageReads {
  import opened JsonGrammar
  import opened Decimals
  import opened Scanner
  import opened Allowlist
  import opened ScannerReads
  import opened ScannerTable
  import opened Usage
  import opened EventStream

  // ----- reading is the inverse of writing -----

  predicate AreDigits(t: Bytes) {
    forall i :: 0 <= i < |t| ==> IsDigit(t[i])
  }

  lemma {:induction false} DigitRunAll(t: Bytes)
    requires AreDigits(t)
    ensures DigitRun(t) == |t|
  {
    if t != [] { DigitRunAll(t[1..]); }
  }

  lemma {:induction false} DigitsOfDecimal(n: nat)
    ensures AreDigits(Decimal(n)) && DigitsValue(Decimal(n)) == n
  {
    DecimalIsDigits(n);
    assert forall i :: 0 <= i < |Decimal(n)| ==> Decimal(n)[i] in Decimal(n);
    if n >= 10 {
      DigitsOfDecimal(n / 10);
      assert Decimal(n)[..|Decimal(n)| - 1] == Decimal(n / 10);
    } else {
      assert Decimal(n)[..0] == [];
    }
  }

  /** Reading an integer gives back the one that was written. */
  lemma IntegerReads(n: int)
    ensures IntegerValue(IntegerText(n)) == Some(n)
  {
    var digits := Decimal(if n < 0 then -n else n);
    DigitsOfDecimal(if n < 0 then -n else n);
    DigitRunAll(digits);
    DecimalIsDigits(if n < 0 then -n else n);
    if n < 0 {
      assert IntegerText(n)[1..] == digits;
    } else {
      assert digits[0] in digits;
    }
  }

  lemma {:induction false} DecimalOfDigits(t: Bytes)
    requires AreDigits(t) && t != [] && (t[0] == '0' ==> |t| == 1)
    ensures Decimal(DigitsValue(t)) == t
  {
    var front, last := t[..|t| - 1], t[|t| - 1];
    assert t == front + [last];
    if front != [] {
      DecimalOfDigits(front);
      assert DigitsValue(front) > 0;
    } else {
      assert DigitsValue([]) == 0;
    }
  }

  /** A scalar of a document reads as an integer only when it is that integer in decimal, or minus zero. */
  lemma ScalarReads(raw: Bytes)
    requires IsString(raw) || IsLiteral(raw)
    ensures IntegerValue(raw).Some? ==> raw == IntegerText(IntegerValue(raw).value) || raw == "-0"
  {
    if IntegerValue(raw).Some? {
      var digits := if raw[0] == '-' then raw[1..] else raw;
      assert AreDigits(digits);
      DecimalOfDigits(digits);
    }
  }

  // ----- places in a body -----

  /** A body's usage object: at the root, or in its `message` or `response` member. */
  datatype Place = AtRoot | InMessage | InResponse

  function UsagePath(place: Place): Path {
    match place
    case AtRoot => [Key("usage")]
    case InMessage => [Key("message"), Key("usage")]
    case InResponse => [Key("response"), Key("usage")]
  }

  function BlockPath(place: Place): string {
    match place
    case AtRoot => "usage"
    case InMessage => Dot("message", "usage")
    case InResponse => Dot("response", "usage")
  }

  lemma DottedOne(name: string)
    ensures Dotted([Key(name)]) == name
  {
    assert [Key(name)][..0] == [];
  }

  lemma DottedMore(path: Path, name: string)
    requires path != []
    ensures Dotted(path + [Key(name)]) == Dot(Dotted(path), name)
  {
    assert (path + [Key(name)])[..|path|] == path;
  }

  lemma UsagePathDotted(place: Place)
    ensures Dotted(UsagePath(place)) == BlockPath(place)
  {
    if place.AtRoot? {
      DottedOne("usage");
    } else {
      var parent := if place.InMessage? then "message" else "response";
      DottedOne(parent);
      DottedMore([Key(parent)], "usage");
      assert [Key(parent)] + [Key("usage")] == UsagePath(place);
    }
  }

  lemma UnderUsageIs(place: Place, rest: string, field: string -> bool)
    requires field(rest)
    ensures UnderUsage(Dot(BlockPath(place), rest), field)
  {
    var prefix := if place.AtRoot? then "usage." else if place.InMessage? then "message.usage." else "response.usage.";
    assert BlockPath(place) + "." == prefix;
    assert Dot(BlockPath(place), rest)[..|prefix|] == prefix;
    assert Dot(BlockPath(place), rest)[|prefix|..] == rest;
  }

  lemma FieldIsKept(place: Place, name: string)
    requires IsCounter(name)
    ensures Dotted(UsagePath(place) + [Key(name)]) == Dot(BlockPath(place), name) && MetadataScalar(Dot(BlockPath(place), name))
  {
    UsagePathDotted(place);
    DottedMore(UsagePath(place), name);
    UnderUsageIs(place, name, IsUsageField);
  }

  lemma DetailDotted(place: Place, details: string, name: string)
    ensures Dotted(UsagePath(place) + [Key(details)] + [Key(name)]) == Dot(Dot(BlockPath(place), details), name)
  {
    UsagePathDotted(place);
    DottedMore(UsagePath(place), details);
    DottedMore(UsagePath(place) + [Key(details)], name);
  }

  lemma DotDot(a: string, b: string, c: string)
    ensures Dot(Dot(a, b), c) == Dot(a, Dot(b, c))
  {
    assert a + "." + b + "." + c == a + "." + (b + "." + c);
  }

  lemma DetailIsKept(place: Place, details: string, name: string)
    requires IsDetailCounter(Dot(details, name))
    ensures MetadataScalar(Dot(Dot(BlockPath(place), details), name))
  {
    UnderUsageIs(place, Dot(details, name), IsUsageField);
    DotDot(BlockPath(place), details, name);
  }

  lemma UsageIsKept(place: Place)
    ensures Dotted(UsagePath(place)) == BlockPath(place) && MetadataContainer(BlockPath(place)) && IsUsagePath(BlockPath(place))
  {
    UsagePathDotted(place);
    if !place.AtRoot? {
      var parent := if place.InMessage? then "message" else "response";
      assert Dot(parent, "usage")[|parent|..] == ".usage";
    }
  }

  // ----- what a tree says at a place -----

  function LastScalar(decode: Bytes -> string, root: Json, path: Path): Option<Bytes> {
    Last(MetadataRules(decode), root, path, AScalar)
  }

  predicate HasObject(decode: Bytes -> string, root: Json, path: Path) {
    Last(MetadataRules(decode), root, path, AnObject).Some?
  }

  /** The last scalar at `path` is the count `n` in decimal; without one, it is no count in decimal. */
  ghost predicate IsCountAt(decode: Bytes -> string, root: Json, path: Path, n: Option<int>) {
    var raw := LastScalar(decode, root, path);
    if n.Some? then 0 <= n.value <= MAX_COUNT && (raw == Some(Decimal(n.value)) || (n.value == 0 && raw == Some("-0")))
    else raw != Some("-0") && forall m: nat :: m <= MAX_COUNT ==> raw != Some(Decimal(m))
  }

  /** The last scalar at `path` if it is a string of at most `limit` decoded bytes, or nothing. */
  function TextIn(decode: Bytes -> string, root: Json, path: Path, limit: nat): string {
    var raw := LastScalar(decode, root, path);
    if raw.Some? && raw.value != [] && raw.value[0] == '"' && |decode(raw.value)| <= limit then decode(raw.value) else ""
  }

  lemma {:induction false} LastIsScalar(rules: Rules, v: Json, path: Path)
    requires WellFormed(v)
    ensures Last(rules, v, path, AScalar).Some? ==>
              IsString(Last(rules, v, path, AScalar).value) || IsLiteral(Last(rules, v, path, AScalar).value)
    decreases v, 1
  {
    if path != [] && v.Group? { LastItemIsScalar(rules, v.items, v.kind, path); }
  }

  lemma {:induction false} LastItemIsScalar(rules: Rules, items: Items, kind: Kind, path: Path)
    requires WellFormedItems(items, kind) && path != []
    ensures LastItem(rules, items, path, AScalar).Some? ==>
              IsString(LastItem(rules, items, path, AScalar).value) || IsLiteral(LastItem(rules, items, path, AScalar).value)
    decreases items, 0
  {
    if items.Snoc? {
      LastItemIsScalar(rules, items.front, kind, path);
      LastIsScalar(rules, items.item.value, path[1..]);
    }
  }

  // ----- a body and its table -----

  /** An accepted body with plain keys. */
  predicate IsBody(decode: Bytes -> string, p: Bytes, lead: Bytes, root: Json, trail: Bytes) {
    IsDocumentOf(p, lead, root, trail) && HasPlainKeys(MetadataRules(decode), root)
  }

  function TableOf(decode: Bytes -> string, p: Bytes): Table
    requires Run(MetadataRules(decode), Before, p).After?
  {
    Run(MetadataRules(decode), Before, p).table
  }

  lemma BodyEnds(decode: Bytes -> string, p: Bytes, lead: Bytes, root: Json, trail: Bytes)
    requires IsBody(decode, p, lead, root, trail)
    ensures Run(MetadataRules(decode), Before, p).After?
  {
    DocumentIsAccepted(MetadataRules(decode), p, lead, root, trail);
  }

  lemma CountReads(decode: Bytes -> string, p: Bytes, lead: Bytes, root: Json, trail: Bytes, path: Path, n: Option<int>)
    requires IsBody(decode, p, lead, root, trail) && Run(MetadataRules(decode), Before, p).After?
    requires IsPlainPath(path) && MetadataScalar(Dotted(path)) && IsCountAt(decode, root, path, n)
    ensures Usage.Number(TableOf(decode, p), Dotted(path)) == n
  {
    TableIsLookup(decode, p, lead, root, trail, path, AScalar);
    LastIsScalar(MetadataRules(decode), root, path);
    var raw := LastScalar(decode, root, path);
    if n.Some? {
      IntegerReads(n.value);
      assert IntegerValue("-0") == Some(0) by { MinusZero(); }
    } else if raw.Some? {
      ScalarReads(raw.value);
    }
  }

  lemma MinusZero()
    ensures IntegerValue("-0") == Some(0)
  {
    assert "-0"[1..] == "0";
    assert Decimal(0) == "0";
    DigitsOfDecimal(0);
    DigitRunAll("0");
  }

  lemma TextReads(decode: Bytes -> string, p: Bytes, lead: Bytes, root: Json, trail: Bytes, path: Path, limit: nat)
    requires IsBody(decode, p, lead, root, trail) && Run(MetadataRules(decode), Before, p).After?
    requires IsPlainPath(path) && MetadataScalar(Dotted(path))
    ensures TextAt(decode, TableOf(decode, p), Dotted(path), limit) == TextIn(decode, root, path, limit)
  {
    TableIsLookup(decode, p, lead, root, trail, path, AScalar);
  }

  // ----- the counts of one usage object -----

  /** The counts of a usage object, each by the name it stands under. */
  datatype Counts = Counts(
    input: Option<int>, output: Option<int>, prompt: Option<int>, completion: Option<int>,
    creation: Option<int>, read: Option<int>,
    promptCached: Option<int>, promptWritten: Option<int>, inputCached: Option<int>, inputWritten: Option<int>)

  ghost predicate HasCounts(decode: Bytes -> string, root: Json, place: Place, c: Counts) {
    var u := UsagePath(place);
    && IsCountAt(decode, root, u + [Key("input_tokens")], c.input)
    && IsCountAt(decode, root, u + [Key("output_tokens")], c.output)
    && IsCountAt(decode, root, u + [Key("prompt_tokens")], c.prompt)
    && IsCountAt(decode, root, u + [Key("completion_tokens")], c.completion)
    && IsCountAt(decode, root, u + [Key("cache_creation_input_tokens")], c.creation)
    && IsCountAt(decode, root, u + [Key("cache_read_input_tokens")], c.read)
    && IsCountAt(decode, root, u + [Key("prompt_tokens_details")] + [Key("cached_tokens")], c.promptCached)
    && IsCountAt(decode, root, u + [Key("prompt_tokens_details")] + [Key("cache_write_tokens")], c.promptWritten)
    && IsCountAt(decode, root, u + [Key("input_tokens_details")] + [Key("cached_tokens")], c.inputCached)
    && IsCountAt(decode, root, u + [Key("input_tokens_details")] + [Key("cache_write_tokens")], c.inputWritten)
  }

  lemma FieldReads(decode: Bytes -> string, p: Bytes, lead: Bytes, root: Json, trail: Bytes, place: Place, name: string, n: Option<int>)
    requires IsBody(decode, p, lead, root, trail) && Run(MetadataRules(decode), Before, p).After?
    requires IsCounter(name) && IsPlainName(name) && IsCountAt(decode, root, UsagePath(place) + [Key(name)], n)
    ensures Usage.Number(TableOf(decode, p), Dot(BlockPath(place), name)) == n
  {
    FieldIsKept(place, name);
    PlainUsage(place);
    CountReads(decode, p, lead, root, trail, UsagePath(place) + [Key(name)], n);
  }

  lemma PlainUsage(place: Place)
    ensures IsPlainPath(UsagePath(place))
  {
  }

  lemma DetailReads(decode: Bytes -> string, p: Bytes, lead: Bytes, root: Json, trail: Bytes,
                    place: Place, details: string, name: string, n: Option<int>)
    requires IsBody(decode, p, lead, root, trail) && Run(MetadataRules(decode), Before, p).After?
    requires IsDetailCounter(Dot(details, name)) && IsPlainName(details) && IsPlainName(name)
    requires IsCountAt(decode, root, UsagePath(place) + [Key(details)] + [Key(name)], n)
    ensures Usage.Number(TableOf(decode, p), Dot(Dot(BlockPath(place), details), name)) == n
  {
    DetailDotted(place, details, name);
    DetailIsKept(place, details, name);
    PlainUsage(place);
    CountReads(decode, p, lead, root, trail, UsagePath(place) + [Key(details)] + [Key(name)], n);
  }

  predicate HasBlockCounts(b: UsageBlock, c: Counts) {
    && b.inputTokens == c.input && b.outputTokens == c.output && b.promptTokens == c.prompt && b.completionTokens == c.completion
    && b.cacheCreationInputTokens == c.creation && b.cacheReadInputTokens == c.read
    && Cached(b.promptTokensDetails) == c.promptCached && Usage.Written(b.promptTokensDetails) == c.promptWritten
    && Cached(b.inputTokensDetails) == c.inputCached && Usage.Written(b.inputTokensDetails) == c.inputWritten
    && (b.inputTokensDetails.Some? <==> c.inputCached.Some? || c.inputWritten.Some?)
  }

  predicate HasInputs(table: Table, path: string, c: Counts) {
    Usage.Number(table, Dot(path, "input_tokens")) == c.input && Usage.Number(table, Dot(path, "prompt_tokens")) == c.prompt
  }

  predicate HasCaches(table: Table, path: string, c: Counts) {
    && Usage.Number(table, Dot(path, "cache_creation_input_tokens")) == c.creation
    && Usage.Number(table, Dot(path, "cache_read_input_tokens")) == c.read
  }

  predicate HasOutputs(table: Table, path: string, c: Counts) {
    Usage.Number(table, Dot(path, "output_tokens")) == c.output && Usage.Number(table, Dot(path, "completion_tokens")) == c.completion
  }

  predicate HasPromptDetails(table: Table, path: string, c: Counts) {
    && Usage.Number(table, Dot(Dot(path, "prompt_tokens_details"), "cached_tokens")) == c.promptCached
    && Usage.Number(table, Dot(Dot(path, "prompt_tokens_details"), "cache_write_tokens")) == c.promptWritten
  }

  predicate HasInputDetails(table: Table, path: string, c: Counts) {
    && Usage.Number(table, Dot(Dot(path, "input_tokens_details"), "cached_tokens")) == c.inputCached
    && Usage.Number(table, Dot(Dot(path, "input_tokens_details"), "cache_write_tokens")) == c.inputWritten
  }

  lemma InputsRead(decode: Bytes -> string, p: Bytes, lead: Bytes, root: Json, trail: Bytes, place: Place, c: Counts)
    requires IsBody(decode, p, lead, root, trail) && Run(MetadataRules(decode), Before, p).After? && HasCounts(decode, root, place, c)
    ensures HasInputs(TableOf(decode, p), BlockPath(place), c)
  {
    FieldReads(decode, p, lead, root, trail, place, "input_tokens", c.input);
    FieldReads(decode, p, lead, root, trail, place, "prompt_tokens", c.prompt);
  }

  lemma CachesRead(decode: Bytes -> string, p: Bytes, lead: Bytes, root: Json, trail: Bytes, place: Place, c: Counts)
    requires IsBody(decode, p, lead, root, trail) && Run(MetadataRules(decode), Before, p).After? && HasCounts(decode, root, place, c)
    ensures HasCaches(TableOf(decode, p), BlockPath(place), c)
  {
    FieldReads(decode, p, lead, root, trail, place, "cache_creation_input_tokens", c.creation);
    FieldReads(decode, p, lead, root, trail, place, "cache_read_input_tokens", c.read);
  }

  lemma OutputsRead(decode: Bytes -> string, p: Bytes, lead: Bytes, root: Json, trail: Bytes, place: Place, c: Counts)
    requires IsBody(decode, p, lead, root, trail) && Run(MetadataRules(decode), Before, p).After? && HasCounts(decode, root, place, c)
    ensures HasOutputs(TableOf(decode, p), BlockPath(place), c)
  {
    FieldReads(decode, p, lead, root, trail, place, "output_tokens", c.output);
    FieldReads(decode, p, lead, root, trail, place, "completion_tokens", c.completion);
  }

  lemma PromptDetailsRead(decode: Bytes -> string, p: Bytes, lead: Bytes, root: Json, trail: Bytes, place: Place, c: Counts)
    requires IsBody(decode, p, lead, root, trail) && Run(MetadataRules(decode), Before, p).After? && HasCounts(decode, root, place, c)
    ensures HasPromptDetails(TableOf(decode, p), BlockPath(place), c)
  {
    DetailReads(decode, p, lead, root, trail, place, "prompt_tokens_details", "cached_tokens", c.promptCached);
    DetailReads(decode, p, lead, root, trail, place, "prompt_tokens_details", "cache_write_tokens", c.promptWritten);
  }

  lemma InputDetailsRead(decode: Bytes -> string, p: Bytes, lead: Bytes, root: Json, trail: Bytes, place: Place, c: Counts)
    requires IsBody(decode, p, lead, root, trail) && Run(MetadataRules(decode), Before, p).After? && HasCounts(decode, root, place, c)
    ensures HasInputDetails(TableOf(decode, p), BlockPath(place), c)
  {
    DetailReads(decode, p, lead, root, trail, place, "input_tokens_details", "cached_tokens", c.inputCached);
    DetailReads(decode, p, lead, root, trail, place, "input_tokens_details", "cache_write_tokens", c.inputWritten);
  }

  lemma TableBlock(decode: Bytes -> string, table: Table, path: string, c: Counts)
    requires HasInputs(table, path, c) && HasCaches(table, path, c) && HasOutputs(table, path, c) && HasPromptDetails(table, path, c) && HasInputDetails(table, path, c)
    requires BlockAt(decode, table, path).Some?
    ensures HasBlockCounts(BlockAt(decode, table, path).value, c)
  {
  }

  lemma BlockStands(decode: Bytes -> string, p: Bytes, lead: Bytes, root: Json, trail: Bytes, place: Place)
    requires IsBody(decode, p, lead, root, trail) && Run(MetadataRules(decode), Before, p).After?
    ensures BlockAt(decode, TableOf(decode, p), BlockPath(place)).Some? <==> HasObject(decode, root, UsagePath(place))
  {
    UsageIsKept(place);
    PlainUsage(place);
    TableIsLookup(decode, p, lead, root, trail, UsagePath(place), AnObject);
    HitIsMark(MetadataRules(decode), root, UsagePath(place));
  }

  lemma {:induction false} HitIsMark(rules: Rules, v: Json, path: Path)
    ensures Last(rules, v, path, AnObject).Some? ==> Last(rules, v, path, AnObject).value == "{}"
    decreases v, 1
  {
    if path != [] && v.Group? { ItemHitIsMark(rules, v.items, path); }
  }

  lemma {:induction false} ItemHitIsMark(rules: Rules, items: Items, path: Path)
    requires path != []
    ensures LastItem(rules, items, path, AnObject).Some? ==> LastItem(rules, items, path, AnObject).value == "{}"
    decreases items, 0
  {
    if items.Snoc? {
      ItemHitIsMark(rules, items.front, path);
      HitIsMark(rules, items.item.value, path[1..]);
    }
  }

  lemma BlockReads(decode: Bytes -> string, p: Bytes, lead: Bytes, root: Json, trail: Bytes, place: Place, c: Counts)
    requires IsBody(decode, p, lead, root, trail) && Run(MetadataRules(decode), Before, p).After?
    requires HasObject(decode, root, UsagePath(place)) && HasCounts(decode, root, place, c)
    ensures var b := BlockAt(decode, TableOf(decode, p), BlockPath(place)); b.Some? && HasBlockCounts(b.value, c)
  {
    BlockStands(decode, p, lead, root, trail, place);
    InputsRead(decode, p, lead, root, trail, place, c);
    CachesRead(decode, p, lead, root, trail, place, c);
    OutputsRead(decode, p, lead, root, trail, place, c);
    PromptDetailsRead(decode, p, lead, root, trail, place, c);
    InputDetailsRead(decode, p, lead, root, trail, place, c);
    TableBlock(decode, TableOf(decode, p), BlockPath(place), c);
  }

  /** What a body with these counts in its only usage object makes of the totals before it. */
  predicate ReportsCounts(before: UsageTotals, t: UsageTotals, c: Counts) {
    var inclusive := if c.prompt.Some? then c.prompt else c.input;
    var cached := if c.prompt.Some? then c.promptCached else c.inputCached;
    var written := if c.prompt.Some? then c.promptWritten else c.inputWritten;
    var cacheReads := if cached.Some? then cached.value else if c.read.Some? then c.read.value else 0;
    var cacheWrites := if written.Some? then written.value else 0;
    // Reads are part of the count unless only the separate field reports them for an input count.
    var share := if c.prompt.Some? || cached.Some? then cacheReads else 0;
    var count := if inclusive.Some? then inclusive.value else 0;
    var flagged := if c.prompt.Some? || cached.Some? then share + cacheWrites > count
                   else written.Some? && (cacheWrites > count || cacheReads > count);
    // The output count: the latest reported one.
    && t.outputTokens == (if c.completion.Some? then c.completion else if c.output.Some? then c.output else before.outputTokens)
    // The input count: untouched by a body that reports none.
    && (t.hasInput <==> before.hasInput || inclusive.Some?)
    && (inclusive.None? ==> t.inputTokens == before.inputTokens && t.invalid == before.invalid)
    && (inclusive.None? ==> t.cacheReadTokens == if c.read.Some? && c.read.value > 0 then c.read.value else before.cacheReadTokens)
    && (inclusive.Some? ==> t.cacheReadTokens == cacheReads && (t.invalid <==> before.invalid || flagged))
    && (inclusive.Some? ==> t.inputTokens == if share + cacheWrites <= count then count - share - cacheWrites else 0)
    // The separate count of cache writes wins.
    && t.cacheCreationTokens == (if c.creation.Some? then c.creation.value
                                 else if c.prompt.Some? || (c.input.Some? && written.Some?) then cacheWrites
                                 else before.cacheCreationTokens)
  }


  lemma BlockReports(t: UsageTotals, b: UsageBlock, c: Counts)
    requires HasBlockCounts(b, c) && BlockInRange(b)
    ensures ReportsCounts(t, AddBlock(t, b), c)
  {
  }

  lemma OnlyBlock(t: UsageTotals, blocks: seq<Option<UsageBlock>>, k: nat)
    requires |blocks| == 3 && k < 3 && blocks[k].Some? && forall i :: 0 <= i < 3 && i != k ==> blocks[i].None?
    ensures AddBlocks(t, blocks) == AddBlock(t, blocks[k].value)
  {
    assert blocks[..2][..1] == blocks[..1] && blocks[..1][..0] == [];
    assert AddBlocks(t, blocks[..1]) == if k == 0 then AddBlock(t, blocks[0].value) else t;
    assert AddBlocks(t, blocks[..2]) == if k <= 1 then AddBlock(t, blocks[k].value) else t;
  }

  function Rank(place: Place): nat {
    match place
    case AtRoot => 0
    case InMessage => 1
    case InResponse => 2
  }

  /** The table has a usage object at this place alone, with these counts. */
  predicate HasOneBlock(decode: Bytes -> string, table: Table, place: Place, c: Counts) {
    && (BlockAt(decode, table, "usage").Some? <==> place.AtRoot?)
    && (BlockAt(decode, table, Dot("message", "usage")).Some? <==> place.InMessage?)
    && (BlockAt(decode, table, Dot("response", "usage")).Some? <==> place.InResponse?)
    && var b := BlockAt(decode, table, BlockPath(place)); b.Some? && HasBlockCounts(b.value, c)
  }

  lemma OneBlockReports(decode: Bytes -> string, t: UsageTotals, table: Table, place: Place, c: Counts)
    requires HasOneBlock(decode, table, place, c)
    ensures ReportsCounts(t, Add(t, WireOf(decode, table)), c)
  {
    var w := WireOf(decode, table);
    var blocks := [w.root.usage, w.message.usage, w.response.usage];
    OnlyBlock(Labels(t, w), blocks, Rank(place));
    TableBlockInRange(decode, table, BlockPath(place));
    BlockReports(Labels(t, w), blocks[Rank(place)].value, c);
  }

  lemma BodyHasOneBlock(decode: Bytes -> string, p: Bytes, lead: Bytes, root: Json, trail: Bytes, place: Place, c: Counts)
    requires IsBody(decode, p, lead, root, trail) && Run(MetadataRules(decode), Before, p).After?
    requires forall other :: HasObject(decode, root, UsagePath(other)) <==> other == place
    requires HasCounts(decode, root, place, c)
    ensures HasOneBlock(decode, TableOf(decode, p), place, c)
  {
    BlockReads(decode, p, lead, root, trail, place, c);
    BlockStands(decode, p, lead, root, trail, AtRoot);
    BlockStands(decode, p, lead, root, trail, InMessage);
    BlockStands(decode, p, lead, root, trail, InResponse);
  }

  /** For an accepted body with plain keys and one usage object: each count that stands in its place in decimal is added to
      the totals as that number, the output count included; a count that is not there leaves the earlier one. */
  lemma BodyReports(decode: Bytes -> string, t: UsageTotals, p: Bytes, lead: Bytes, root: Json, trail: Bytes, place: Place, c: Counts)
    requires IsBody(decode, p, lead, root, trail)
    requires forall other :: HasObject(decode, root, UsagePath(other)) <==> other == place
    requires HasCounts(decode, root, place, c)
    ensures var how := MetadataReading(decode); ReportsCounts(t, Finish(how, t, Run(how.scan, Before, p)), c)
  {
    BodyEnds(decode, p, lead, root, trail);
    BodyHasOneBlock(decode, p, lead, root, trail, place, c);
    OneBlockReports(decode, t, TableOf(decode, p), place, c);
  }
}
