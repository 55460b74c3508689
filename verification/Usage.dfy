/** From a finished document's table to token counts: what is read, how it accumulates, what is reported. */
module Usage {
  import opened JsonGrammar
  import Scanner
  import opened Allowlist

  const MAX_COUNT: int := 2147483647

  datatype TokenDetails = TokenDetails(cachedTokens: Option<int>, cacheWriteTokens: Option<int>)

  datatype UsageBlock = UsageBlock(
    serviceTier: string, speed: string,
    inputTokens: Option<int>, outputTokens: Option<int>,
    cacheCreationInputTokens: Option<int>, cacheReadInputTokens: Option<int>,
    promptTokens: Option<int>, completionTokens: Option<int>,
    promptTokensDetails: Option<TokenDetails>, inputTokensDetails: Option<TokenDetails>)

  datatype Envelope = Envelope(serviceTier: string, model: string, status: string, incompleteReason: string, usage: Option<UsageBlock>)

  /** One response object: its own fields, and those of its `message` and `response` members. */
  datatype WireUsage = WireUsage(
    root: Envelope, message: Envelope, response: Envelope,
    deltaStopReason: string, stopReason: string, finishReason: string)

  datatype UsageTotals = UsageTotals(
    serviceTier: string, speed: string, hasInput: bool, invalid: bool, model: string,
    inputTokens: int, outputTokens: Option<int>, cacheCreationTokens: int, cacheReadTokens: int,
    stopReason: string, observed: bool)

  const NO_USAGE := UsageTotals("", "", false, false, "", 0, None, 0, 0, "", false)

  // ----- reading the table -----

  function DigitsValue(t: Bytes): nat
    requires forall i :: 0 <= i < |t| ==> IsDigit(t[i])
  {
    if t == [] then 0
    else
      assert IsDigit(t[|t| - 1]);
      10 * DigitsValue(t[..|t| - 1]) + (t[|t| - 1] as int - '0' as int)
  }

  /** The value of an integer literal without fraction or exponent. */
  function IntegerValue(raw: Bytes): Option<int> {
    var digits := if |raw| > 0 && raw[0] == '-' then raw[1..] else raw;
    if digits != [] && DigitRun(digits) == |digits|
    then (var value: int := DigitsValue(digits); Some(if raw[0] == '-' then -value else value))
    else None
  }

  function Number(table: Scanner.Table, path: string): (n: Option<int>)
    ensures n.Some? ==> path in table && IntegerValue(table[path]) == n && 0 <= n.value <= MAX_COUNT
    ensures n.None? ==> path !in table || IntegerValue(table[path]).None? || !(0 <= IntegerValue(table[path]).value <= MAX_COUNT)
  {
    if path !in table || IntegerValue(table[path]).None? then None
    else
      var n := IntegerValue(table[path]).value;
      if n < 0 || n > MAX_COUNT then None else Some(n)
  }

  /** A string value of at most `limit` decoded bytes; anything else reads as empty. */
  function TextAt(decode: Bytes -> string, table: Scanner.Table, path: string, limit: nat): string {
    if path in table && |table[path]| > 0 && table[path][0] == '"' && |decode(table[path])| <= limit
    then decode(table[path]) else ""
  }

  function DetailsAt(table: Scanner.Table, path: string): Option<TokenDetails> {
    var cached := Number(table, Dot(path, "cached_tokens"));
    var written := Number(table, Dot(path, "cache_write_tokens"));
    if cached.None? && written.None? then None else Some(TokenDetails(cached, written))
  }

  function BlockAt(decode: Bytes -> string, table: Scanner.Table, path: string): Option<UsageBlock> {
    if path !in table || table[path] == [] then None
    else Some(UsageBlock(
      TextAt(decode, table, Dot(path, "service_tier"), 32), TextAt(decode, table, Dot(path, "speed"), 16),
      Number(table, Dot(path, "input_tokens")), Number(table, Dot(path, "output_tokens")),
      Number(table, Dot(path, "cache_creation_input_tokens")), Number(table, Dot(path, "cache_read_input_tokens")),
      Number(table, Dot(path, "prompt_tokens")), Number(table, Dot(path, "completion_tokens")),
      DetailsAt(table, Dot(path, "prompt_tokens_details")), DetailsAt(table, Dot(path, "input_tokens_details"))))
  }

  function WireOf(decode: Bytes -> string, table: Scanner.Table): WireUsage {
    WireUsage(
      Envelope(TextAt(decode, table, "service_tier", 32), TextAt(decode, table, "model", 128), TextAt(decode, table, "status", 64),
               TextAt(decode, table, Dot("incomplete_details", "reason"), 64), BlockAt(decode, table, "usage")),
      Envelope("", TextAt(decode, table, Dot("message", "model"), 128), "", "", BlockAt(decode, table, Dot("message", "usage"))),
      Envelope(TextAt(decode, table, Dot("response", "service_tier"), 32), TextAt(decode, table, Dot("response", "model"), 128),
               TextAt(decode, table, Dot("response", "status"), 64), TextAt(decode, table, Dot(Dot("response", "incomplete_details"), "reason"), 64),
               BlockAt(decode, table, Dot("response", "usage"))),
      TextAt(decode, table, Dot("delta", "stop_reason"), 64), TextAt(decode, table, "stop_reason", 64),
      TextAt(decode, table, Dot(Dot("choices", "*"), "finish_reason"), 64))
  }

  // ----- accumulating -----

  function Or(later: string, earlier: string): string {
    if later != "" then later else earlier
  }

  function OrZero(n: Option<int>): int {
    if n.Some? then n.value else 0
  }

  function Max(a: int, b: int): int {
    if a >= b then a else b
  }

  function Cached(details: Option<TokenDetails>): Option<int> {
    if details.Some? then details.value.cachedTokens else None
  }

  function Written(details: Option<TokenDetails>): Option<int> {
    if details.Some? then details.value.cacheWriteTokens else None
  }

  /** The input side of one block: counts that include the cached share are split. */
  function AddInput(t: UsageTotals, b: UsageBlock): UsageTotals {
    var read := OrZero(b.cacheReadInputTokens);
    if b.promptTokens.Some? then
      var read := if Cached(b.promptTokensDetails).Some? then Cached(b.promptTokensDetails).value else read;
      var writes := OrZero(Written(b.promptTokensDetails));
      t.(hasInput := true, invalid := t.invalid || read + writes > b.promptTokens.value,
         inputTokens := Max(0, b.promptTokens.value - read - writes), cacheCreationTokens := writes, cacheReadTokens := read)
    else if b.inputTokens.Some? then
      var cached := Cached(b.inputTokensDetails);
      var read := if cached.Some? then cached.value else read;
      var unread := if cached.Some? then Max(0, b.inputTokens.value - read) else b.inputTokens.value;
      var writes := Written(b.inputTokensDetails);
      var input := unread - OrZero(writes);
      t.(hasInput := true,
         invalid := t.invalid || (b.inputTokensDetails.Some? && (input < 0 || read > b.inputTokens.value)),
         cacheCreationTokens := if writes.Some? then writes.value else t.cacheCreationTokens,
         inputTokens := Max(0, input), cacheReadTokens := read)
    else if read > 0 then t.(cacheReadTokens := read)
    else t
  }

  function AddBlock(t: UsageTotals, b: UsageBlock): UsageTotals {
    var t := AddInput(t.(observed := true, serviceTier := Or(b.serviceTier, t.serviceTier), speed := Or(b.speed, t.speed)), b);
    t.(cacheCreationTokens := if b.cacheCreationInputTokens.Some? then b.cacheCreationInputTokens.value else t.cacheCreationTokens,
       outputTokens := if b.completionTokens.Some? then b.completionTokens
                       else if b.outputTokens.Some? then b.outputTokens else t.outputTokens)
  }

  function AddBlocks(t: UsageTotals, blocks: seq<Option<UsageBlock>>): UsageTotals {
    if blocks == [] then t
    else
      var t := AddBlocks(t, blocks[..|blocks| - 1]);
      var last := blocks[|blocks| - 1];
      if last.Some? then AddBlock(t, last.value) else t
  }

  function Labels(t: UsageTotals, w: WireUsage): UsageTotals {
    t.(serviceTier := Or(w.response.serviceTier, Or(w.root.serviceTier, t.serviceTier)),
       model := Or(w.response.model, Or(w.message.model, Or(w.root.model, t.model))),
       stopReason := Or(w.root.incompleteReason, Or(w.root.status, Or(w.response.incompleteReason, Or(w.response.status, t.stopReason)))))
  }

  /** The totals after one more response object: later non-empty labels and counts win. */
  function Add(t: UsageTotals, w: WireUsage): UsageTotals {
    var t := AddBlocks(Labels(t, w), [w.root.usage, w.message.usage, w.response.usage]);
    t.(stopReason := Or(w.finishReason, Or(w.stopReason, Or(w.deltaStopReason, t.stopReason))))
  }

  class Accumulator {
    var serviceTier: string
    var speed: string
    var hasInput: bool
    var invalid: bool
    var model: string
    var inputTokens: int
    var outputTokens: Option<int>
    var cacheCreationTokens: int
    var cacheReadTokens: int
    var stopReason: string
    var observed: bool

    function Totals(): UsageTotals
      reads this
    {
      UsageTotals(serviceTier, speed, hasInput, invalid, model, inputTokens, outputTokens,
                  cacheCreationTokens, cacheReadTokens, stopReason, observed)
    }

    constructor ()
      ensures Totals() == NO_USAGE
    {
      serviceTier, speed, model, stopReason := "", "", "", "";
      hasInput, invalid, observed := false, false, false;
      inputTokens, outputTokens, cacheCreationTokens, cacheReadTokens := 0, None, 0, 0;
    }

    method Observe(w: WireUsage)
      modifies this
      ensures Totals() == Add(old(Totals()), w)
    {
      ObserveLabels(w);
      ghost var labelled := Totals();
      var blocks := [w.root.usage, w.message.usage, w.response.usage];
      for i := 0 to |blocks|
        invariant Totals() == AddBlocks(labelled, blocks[..i])
      {
        if blocks[i].Some? {
          ObserveBlock(blocks[i].value);
        }
        assert blocks[..i + 1][..i] == blocks[..i];
      }
      assert blocks[..|blocks|] == blocks;
      stopReason := Or(w.deltaStopReason, stopReason);
      stopReason := Or(w.stopReason, stopReason);
      stopReason := Or(w.finishReason, stopReason);
    }

    method ObserveLabels(w: WireUsage)
      modifies this
      ensures Totals() == Labels(old(Totals()), w)
    {
      serviceTier := Or(w.root.serviceTier, serviceTier);
      serviceTier := Or(w.response.serviceTier, serviceTier);
      model := Or(w.root.model, model);
      model := Or(w.message.model, model);
      model := Or(w.response.model, model);
      stopReason := Or(w.response.status, stopReason);
      stopReason := Or(w.response.incompleteReason, stopReason);
      stopReason := Or(w.root.status, stopReason);
      stopReason := Or(w.root.incompleteReason, stopReason);
    }

    method ObserveBlock(b: UsageBlock)
      modifies this
      ensures Totals() == AddBlock(old(Totals()), b)
    {
      observed := true;
      serviceTier := Or(b.serviceTier, serviceTier);
      speed := Or(b.speed, speed);
      ObserveInput(b);
      if b.cacheCreationInputTokens.Some? { cacheCreationTokens := b.cacheCreationInputTokens.value; }
      if b.outputTokens.Some? { outputTokens := b.outputTokens; }
      if b.completionTokens.Some? { outputTokens := b.completionTokens; }
    }

    method ObserveInput(b: UsageBlock)
      modifies this
      ensures Totals() == AddInput(old(Totals()), b)
    {
      var cachedRead := OrZero(b.cacheReadInputTokens);
      if b.promptTokens.Some? {
        if Cached(b.promptTokensDetails).Some? {
          cachedRead := Cached(b.promptTokensDetails).value;
        }
        var writes := OrZero(Written(b.promptTokensDetails));
        hasInput := true;
        if cachedRead + writes > b.promptTokens.value {
          invalid := true;
        }
        inputTokens := Max(0, b.promptTokens.value - cachedRead - writes);
        cacheCreationTokens, cacheReadTokens := writes, cachedRead;
      } else if b.inputTokens.Some? {
        hasInput := true;
        var input := b.inputTokens.value;
        if Cached(b.inputTokensDetails).Some? {
          cachedRead := Cached(b.inputTokensDetails).value;
          input := Max(0, input - cachedRead);
        }
        if Written(b.inputTokensDetails).Some? {
          cacheCreationTokens := Written(b.inputTokensDetails).value;
          input := input - cacheCreationTokens;
        }
        if b.inputTokensDetails.Some? && (input < 0 || cachedRead > b.inputTokens.value) {
          invalid := true;
        }
        inputTokens, cacheReadTokens := Max(0, input), cachedRead;
      } else if cachedRead > 0 {
        cacheReadTokens := cachedRead;
      }
    }
  }

  // ----- every reported count is a 31-bit natural number -----

  predicate IsCount(n: int) {
    0 <= n <= MAX_COUNT
  }

  predicate IsOptionalCount(n: Option<int>) {
    n.Some? ==> IsCount(n.value)
  }

  predicate BlockInRange(b: UsageBlock) {
    && IsOptionalCount(b.inputTokens) && IsOptionalCount(b.outputTokens)
    && IsOptionalCount(b.cacheCreationInputTokens) && IsOptionalCount(b.cacheReadInputTokens)
    && IsOptionalCount(b.promptTokens) && IsOptionalCount(b.completionTokens)
    && IsOptionalCount(Cached(b.promptTokensDetails)) && IsOptionalCount(Written(b.promptTokensDetails))
    && IsOptionalCount(Cached(b.inputTokensDetails)) && IsOptionalCount(Written(b.inputTokensDetails))
  }

  predicate InRange(t: UsageTotals) {
    IsCount(t.inputTokens) && IsOptionalCount(t.outputTokens) && IsCount(t.cacheCreationTokens) && IsCount(t.cacheReadTokens)
  }

  lemma BlockStaysInRange(t: UsageTotals, b: UsageBlock)
    requires InRange(t) && BlockInRange(b)
    ensures InRange(AddBlock(t, b))
  {
  }

  lemma {:induction false} BlocksStayInRange(t: UsageTotals, blocks: seq<Option<UsageBlock>>)
    requires InRange(t) && forall i :: 0 <= i < |blocks| && blocks[i].Some? ==> BlockInRange(blocks[i].value)
    ensures InRange(AddBlocks(t, blocks))
  {
    if blocks != [] {
      BlocksStayInRange(t, blocks[..|blocks| - 1]);
      if blocks[|blocks| - 1].Some? {
        BlockStaysInRange(AddBlocks(t, blocks[..|blocks| - 1]), blocks[|blocks| - 1].value);
      }
    }
  }

  lemma DetailsInRange(table: Scanner.Table, path: string)
    ensures IsOptionalCount(Cached(DetailsAt(table, path))) && IsOptionalCount(Written(DetailsAt(table, path)))
  {
  }

  lemma TableBlockInRange(decode: Bytes -> string, table: Scanner.Table, path: string)
    ensures BlockAt(decode, table, path).Some? ==> BlockInRange(BlockAt(decode, table, path).value)
  {
    DetailsInRange(table, path + ".prompt_tokens_details");
    DetailsInRange(table, path + ".input_tokens_details");
  }

  /** Whatever a table holds, adding it keeps every count in range. */
  lemma DocumentStaysInRange(decode: Bytes -> string, t: UsageTotals, table: Scanner.Table)
    requires InRange(t)
    ensures InRange(Add(t, WireOf(decode, table)))
  {
    var w := WireOf(decode, table);
    TableBlockInRange(decode, table, "usage");
    TableBlockInRange(decode, table, Dot("message", "usage"));
    TableBlockInRange(decode, table, Dot("response", "usage"));
    BlocksStayInRange(Labels(t, w), [w.root.usage, w.message.usage, w.response.usage]);
  }

  // ----- the split of an inclusive count -----

  function DetailsOf(b: UsageBlock): Option<TokenDetails> {
    if b.promptTokens.Some? then b.promptTokensDetails else b.inputTokensDetails
  }

  /** The count of a block that includes its cached share: a prompt count, or an input count unless its cached
      share is only reported in the separate field. */
  function InclusiveCount(b: UsageBlock): Option<int> {
    if b.promptTokens.Some? then b.promptTokens
    else if Cached(b.inputTokensDetails).Some? || OrZero(b.cacheReadInputTokens) == 0 then b.inputTokens
    else None
  }

  /** On fresh totals, a block that reports no separate cache writes is flagged exactly when its parts exceed its
      inclusive count; when it is not flagged, and only then, the three classes add up to that count. */
  lemma InclusiveCountIsSplit(b: UsageBlock)
    requires BlockInRange(b) && InclusiveCount(b).Some? && b.cacheCreationInputTokens.None?
    ensures var t := AddBlock(NO_USAGE, b); var count := InclusiveCount(b).value;
            var details := DetailsOf(b);
            && t.hasInput
            && t.cacheReadTokens == (if Cached(details).Some? then Cached(details).value else OrZero(b.cacheReadInputTokens))
            && t.cacheCreationTokens == OrZero(Written(details))
            && (t.invalid <==> t.cacheReadTokens + t.cacheCreationTokens > count)
            && (!t.invalid <==> t.inputTokens + t.cacheReadTokens + t.cacheCreationTokens == count)
  {
  }

  /** An input count whose cached share is only in the separate field excludes it: the share comes on top. */
  lemma SeparateCountAdds(b: UsageBlock)
    requires BlockInRange(b) && InclusiveCount(b).None? && b.inputTokens.Some? && b.cacheCreationInputTokens.None?
    ensures var t := AddBlock(NO_USAGE, b);
            && t.cacheReadTokens == b.cacheReadInputTokens.value
            && (!t.invalid ==> t.inputTokens + t.cacheReadTokens + t.cacheCreationTokens == b.inputTokens.value + t.cacheReadTokens)
  {
  }

  // ----- the event -----

  /** The catalogued tier: fixed names for one provider, a fast mode and an unpriced commitment for the other. */
  function EventTier(provider: string, t: UsageTotals): string {
    if provider == "openai" then
      if t.serviceTier == "fast" then "priority"
      else if t.serviceTier == "default" || t.serviceTier == "flex" || t.serviceTier == "priority" || t.serviceTier == "scale" then t.serviceTier
      else "unknown"
    else if provider == "anthropic" then
      if t.speed == "fast" then "priority" else if t.serviceTier == "priority" then "unknown" else "default"
    else "default"
  }

  datatype UsageEvent = UsageEvent(
    provider: string, model: string, serviceTier: string,
    inputTokens: int, outputTokens: Option<int>, cacheCreationTokens: int, cacheReadTokens: int, stopReason: string)

  function BuildEvent(provider: string, requestModel: string, t: UsageTotals): UsageEvent {
    UsageEvent(provider, Or(t.model, requestModel), EventTier(provider, t),
               t.inputTokens, if t.hasInput && !t.invalid then t.outputTokens else None,
               t.cacheCreationTokens, t.cacheReadTokens, t.stopReason)
  }
}
