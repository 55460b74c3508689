/** The labels a body reports, in terms of its tree: which of several places wins. */
module UsageLabels {
  import opened JsonGrammar
  import opened Scanner
  import opened Allowlist
  import opened ScannerTable
  import opened Usage
  import opened UsageReads
  import opened EventStream

  /** The first non-empty text. */
  function First(texts: seq<string>): string {
    if texts == [] then "" else if texts[0] != "" then texts[0] else First(texts[1..])
  }

  // ----- the kept places -----

  lemma PathOne(name: string)
    requires IsPlainName(name) && IsRootScalar(name)
    ensures IsPlainPath([Key(name)]) && Dotted([Key(name)]) == name && MetadataScalar(name)
  {
    DottedOne(name);
  }

  lemma PathTwo(parent: string, name: string)
    requires IsPlainName(parent) && IsPlainName(name) && IsNestedScalar(Dot(parent, name))
    ensures IsPlainPath([Key(parent), Key(name)]) && Dotted([Key(parent), Key(name)]) == Dot(parent, name)
    ensures MetadataScalar(Dot(parent, name))
  {
    DottedOne(parent);
    DottedMore([Key(parent)], name);
    assert [Key(parent)] + [Key(name)] == [Key(parent), Key(name)];
  }

  lemma PathThree(a: string, b: string, name: string)
    requires IsPlainName(a) && IsPlainName(b) && IsPlainName(name) && IsNestedScalar(Dot(Dot(a, b), name))
    ensures IsPlainPath([Key(a), Key(b), Key(name)]) && Dotted([Key(a), Key(b), Key(name)]) == Dot(Dot(a, b), name)
    ensures MetadataScalar(Dot(Dot(a, b), name))
  {
    DottedOne(a);
    DottedMore([Key(a)], b);
    DottedMore([Key(a)] + [Key(b)], name);
    assert [Key(a)] + [Key(b)] + [Key(name)] == [Key(a), Key(b), Key(name)];
  }

  lemma PathChoices()
    ensures var path := [Key("choices"), Element, Key("finish_reason")];
            IsPlainPath(path) && Dotted(path) == Dot(Dot("choices", "*"), "finish_reason") && MetadataScalar(Dotted(path))
  {
    DottedOne("choices");
    assert [Key("choices"), Element][..1] == [Key("choices")];
    DottedMore([Key("choices"), Element], "finish_reason");
    assert [Key("choices"), Element] + [Key("finish_reason")] == [Key("choices"), Element, Key("finish_reason")];
  }

  // ----- the texts of a body -----

  lemma OneReads(decode: Bytes -> string, p: Bytes, lead: Bytes, root: Json, trail: Bytes, name: string, limit: nat)
    requires IsBody(decode, p, lead, root, trail) && Run(MetadataRules(decode), Before, p).After?
    requires IsPlainName(name) && IsRootScalar(name)
    ensures TextAt(decode, TableOf(decode, p), name, limit) == TextIn(decode, root, [Key(name)], limit)
  {
    PathOne(name);
    TextReads(decode, p, lead, root, trail, [Key(name)], limit);
  }

  lemma TwoReads(decode: Bytes -> string, p: Bytes, lead: Bytes, root: Json, trail: Bytes, parent: string, name: string, limit: nat)
    requires IsBody(decode, p, lead, root, trail) && Run(MetadataRules(decode), Before, p).After?
    requires IsPlainName(parent) && IsPlainName(name) && IsNestedScalar(Dot(parent, name))
    ensures TextAt(decode, TableOf(decode, p), Dot(parent, name), limit) == TextIn(decode, root, [Key(parent), Key(name)], limit)
  {
    PathTwo(parent, name);
    TextReads(decode, p, lead, root, trail, [Key(parent), Key(name)], limit);
  }

  /** A label of the usage object at a place; nothing without one. */
  function BlockText(decode: Bytes -> string, root: Json, place: Place, name: string, limit: nat): string {
    if HasObject(decode, root, UsagePath(place)) then TextIn(decode, root, UsagePath(place) + [Key(name)], limit) else ""
  }

  lemma BlockTextReads(decode: Bytes -> string, p: Bytes, lead: Bytes, root: Json, trail: Bytes, place: Place, name: string, limit: nat)
    requires IsBody(decode, p, lead, root, trail) && Run(MetadataRules(decode), Before, p).After?
    requires IsCounter(name) && IsPlainName(name)
    ensures TextAt(decode, TableOf(decode, p), Dot(BlockPath(place), name), limit)
            == TextIn(decode, root, UsagePath(place) + [Key(name)], limit)
  {
    FieldIsKept(place, name);
    PlainUsage(place);
    TextReads(decode, p, lead, root, trail, UsagePath(place) + [Key(name)], limit);
  }

  // ----- which label wins -----

  function Tier(block: Option<UsageBlock>): string {
    if block.Some? then block.value.serviceTier else ""
  }

  function Speed(block: Option<UsageBlock>): string {
    if block.Some? then block.value.speed else ""
  }

  lemma InputLabel(t: UsageTotals, b: UsageBlock)
    ensures var r := AddInput(t, b);
            r.model == t.model && r.stopReason == t.stopReason && r.serviceTier == t.serviceTier && r.speed == t.speed
  {
  }

  lemma OneBlockLabel(t: UsageTotals, b: UsageBlock)
    ensures var r := AddBlock(t, b);
            && r.model == t.model && r.stopReason == t.stopReason
            && r.serviceTier == Or(b.serviceTier, t.serviceTier) && r.speed == Or(b.speed, t.speed)
  {
    InputLabel(t.(observed := true, serviceTier := Or(b.serviceTier, t.serviceTier), speed := Or(b.speed, t.speed)), b);
  }

  lemma BlockLabel(t: UsageTotals, blocks: seq<Option<UsageBlock>>)
    requires blocks != []
    ensures var r := AddBlocks(t, blocks); var before := AddBlocks(t, blocks[..|blocks| - 1]); var last := blocks[|blocks| - 1];
            && r.model == before.model && r.stopReason == before.stopReason
            && r.serviceTier == Or(Tier(last), before.serviceTier) && r.speed == Or(Speed(last), before.speed)
  {
    var last := blocks[|blocks| - 1];
    if last.Some? { OneBlockLabel(AddBlocks(t, blocks[..|blocks| - 1]), last.value); }
  }

  lemma BlocksLabel(t: UsageTotals, a: Option<UsageBlock>, b: Option<UsageBlock>, c: Option<UsageBlock>)
    ensures var r := AddBlocks(t, [a, b, c]);
            && r.model == t.model && r.stopReason == t.stopReason
            && r.serviceTier == Or(Tier(c), Or(Tier(b), Or(Tier(a), t.serviceTier)))
            && r.speed == Or(Speed(c), Or(Speed(b), Or(Speed(a), t.speed)))
  {
    BlockLabel(t, [a, b, c]);
    assert [a, b, c][..2] == [a, b];
    BlockLabel(t, [a, b]);
    assert [a, b][..1] == [a];
    BlockLabel(t, [a]);
    assert [a][..0] == [];
  }

  lemma FirstMore(text: string, texts: seq<string>)
    ensures First([text] + texts) == Or(text, First(texts))
  {
    assert ([text] + texts)[1..] == texts;
  }

  // ----- the labels of a body -----

  function Key1(a: string): Path { [Key(a)] }

  function Key2(a: string, b: string): Path { [Key(a), Key(b)] }

  function Key3(a: string, b: string, c: string): Path { [Key(a), Key(b), Key(c)] }

  /** The models a body names, the most telling one first. */
  function Models(decode: Bytes -> string, root: Json): seq<string> {
    [TextIn(decode, root, Key2("response", "model"), 128), TextIn(decode, root, Key2("message", "model"), 128),
     TextIn(decode, root, Key1("model"), 128)]
  }

  /** The reasons a body gives for its end: a choice's own reason, then the stop reasons, then why or how it is incomplete. */
  function Reasons(decode: Bytes -> string, root: Json): seq<string> {
    [TextIn(decode, root, [Key("choices"), Element, Key("finish_reason")], 64),
     TextIn(decode, root, Key1("stop_reason"), 64), TextIn(decode, root, Key2("delta", "stop_reason"), 64),
     TextIn(decode, root, Key2("incomplete_details", "reason"), 64), TextIn(decode, root, Key1("status"), 64),
     TextIn(decode, root, Key3("response", "incomplete_details", "reason"), 64), TextIn(decode, root, Key2("response", "status"), 64)]
  }

  /** The service tiers a body names: usage objects before the response, the response before the root. */
  function Tiers(decode: Bytes -> string, root: Json): seq<string> {
    [BlockText(decode, root, InResponse, "service_tier", 32), BlockText(decode, root, InMessage, "service_tier", 32),
     BlockText(decode, root, AtRoot, "service_tier", 32),
     TextIn(decode, root, Key2("response", "service_tier"), 32), TextIn(decode, root, Key1("service_tier"), 32)]
  }

  function Speeds(decode: Bytes -> string, root: Json): seq<string> {
    [BlockText(decode, root, InResponse, "speed", 16), BlockText(decode, root, InMessage, "speed", 16),
     BlockText(decode, root, AtRoot, "speed", 16)]
  }

  lemma ModelsRead(decode: Bytes -> string, p: Bytes, lead: Bytes, root: Json, trail: Bytes)
    requires IsBody(decode, p, lead, root, trail) && Run(MetadataRules(decode), Before, p).After?
    ensures var w := WireOf(decode, TableOf(decode, p)); Models(decode, root) == [w.response.model, w.message.model, w.root.model]
  {
    TwoReads(decode, p, lead, root, trail, "response", "model", 128);
    TwoReads(decode, p, lead, root, trail, "message", "model", 128);
    OneReads(decode, p, lead, root, trail, "model", 128);
  }

  lemma StopsRead(decode: Bytes -> string, p: Bytes, lead: Bytes, root: Json, trail: Bytes)
    requires IsBody(decode, p, lead, root, trail) && Run(MetadataRules(decode), Before, p).After?
    ensures var w := WireOf(decode, TableOf(decode, p)); Reasons(decode, root)[..3] == [w.finishReason, w.stopReason, w.deltaStopReason]
  {
    PathChoices();
    TextReads(decode, p, lead, root, trail, [Key("choices"), Element, Key("finish_reason")], 64);
    OneReads(decode, p, lead, root, trail, "stop_reason", 64);
    TwoReads(decode, p, lead, root, trail, "delta", "stop_reason", 64);
  }

  lemma StatusesRead(decode: Bytes -> string, p: Bytes, lead: Bytes, root: Json, trail: Bytes)
    requires IsBody(decode, p, lead, root, trail) && Run(MetadataRules(decode), Before, p).After?
    ensures var w := WireOf(decode, TableOf(decode, p));
            Reasons(decode, root)[3..] == [w.root.incompleteReason, w.root.status, w.response.incompleteReason, w.response.status]
  {
    TwoReads(decode, p, lead, root, trail, "incomplete_details", "reason", 64);
    OneReads(decode, p, lead, root, trail, "status", 64);
    PathThree("response", "incomplete_details", "reason");
    TextReads(decode, p, lead, root, trail, Key3("response", "incomplete_details", "reason"), 64);
    TwoReads(decode, p, lead, root, trail, "response", "status", 64);
  }

  lemma TierReads(decode: Bytes -> string, p: Bytes, lead: Bytes, root: Json, trail: Bytes, place: Place)
    requires IsBody(decode, p, lead, root, trail) && Run(MetadataRules(decode), Before, p).After?
    ensures Tier(BlockAt(decode, TableOf(decode, p), BlockPath(place))) == BlockText(decode, root, place, "service_tier", 32)
    ensures Speed(BlockAt(decode, TableOf(decode, p), BlockPath(place))) == BlockText(decode, root, place, "speed", 16)
  {
    BlockStands(decode, p, lead, root, trail, place);
    BlockTextReads(decode, p, lead, root, trail, place, "service_tier", 32);
    BlockTextReads(decode, p, lead, root, trail, place, "speed", 16);
  }

  lemma TiersRead(decode: Bytes -> string, p: Bytes, lead: Bytes, root: Json, trail: Bytes)
    requires IsBody(decode, p, lead, root, trail) && Run(MetadataRules(decode), Before, p).After?
    ensures var w := WireOf(decode, TableOf(decode, p));
            && Tiers(decode, root)
               == [Tier(w.response.usage), Tier(w.message.usage), Tier(w.root.usage), w.response.serviceTier, w.root.serviceTier]
            && Speeds(decode, root) == [Speed(w.response.usage), Speed(w.message.usage), Speed(w.root.usage)]
  {
    TierReads(decode, p, lead, root, trail, InResponse);
    TierReads(decode, p, lead, root, trail, InMessage);
    TierReads(decode, p, lead, root, trail, AtRoot);
    TwoReads(decode, p, lead, root, trail, "response", "service_tier", 32);
    OneReads(decode, p, lead, root, trail, "service_tier", 32);
  }

  lemma FirstOfThree(a: string, b: string, c: string)
    ensures First([a, b, c]) == Or(a, Or(b, c))
  {
    FirstMore(a, [b, c]);
    FirstMore(b, [c]);
    FirstMore(c, []);
  }

  lemma FirstOfFive(a: string, b: string, c: string, d: string, e: string)
    ensures First([a, b, c, d, e]) == Or(a, Or(b, Or(c, Or(d, e))))
  {
    FirstMore(a, [b, c, d, e]);
    FirstMore(b, [c, d, e]);
    FirstOfThree(c, d, e);
  }

  /** An earlier text is taken only when all others are empty. */
  lemma {:induction false} FirstBefore(texts: seq<string>, earlier: string)
    ensures First(texts + [earlier]) == Or(First(texts), earlier)
  {
    if texts == [] {
      FirstMore(earlier, []);
    } else {
      FirstBefore(texts[1..], earlier);
      assert (texts + [earlier])[1..] == texts[1..] + [earlier];
    }
  }

  lemma WireLabels(before: UsageTotals, w: WireUsage)
    ensures var t := Add(before, w);
            && t.model == Or(First([w.response.model, w.message.model, w.root.model]), before.model)
            && t.serviceTier == Or(First([Tier(w.response.usage), Tier(w.message.usage), Tier(w.root.usage),
                                          w.response.serviceTier, w.root.serviceTier]), before.serviceTier)
            && t.speed == Or(First([Speed(w.response.usage), Speed(w.message.usage), Speed(w.root.usage)]), before.speed)
  {
    BlocksLabel(Labels(before, w), w.root.usage, w.message.usage, w.response.usage);
    FirstOfThree(w.response.model, w.message.model, w.root.model);
    FirstOfFive(Tier(w.response.usage), Tier(w.message.usage), Tier(w.root.usage), w.response.serviceTier, w.root.serviceTier);
    FirstOfThree(Speed(w.response.usage), Speed(w.message.usage), Speed(w.root.usage));
  }

  lemma WireReason(before: UsageTotals, w: WireUsage)
    ensures Add(before, w).stopReason
            == Or(First([w.finishReason, w.stopReason, w.deltaStopReason]
                        + [w.root.incompleteReason, w.root.status, w.response.incompleteReason, w.response.status]), before.stopReason)
  {
    BlocksLabel(Labels(before, w), w.root.usage, w.message.usage, w.response.usage);
    var tail := [w.root.incompleteReason, w.root.status, w.response.incompleteReason, w.response.status];
    FirstMore(w.root.incompleteReason, [w.root.status, w.response.incompleteReason, w.response.status]);
    FirstOfThree(w.root.status, w.response.incompleteReason, w.response.status);
    assert [w.finishReason] + ([w.stopReason] + ([w.deltaStopReason] + tail)) == [w.finishReason, w.stopReason, w.deltaStopReason] + tail;
    FirstMore(w.finishReason, [w.stopReason] + ([w.deltaStopReason] + tail));
    FirstMore(w.stopReason, [w.deltaStopReason] + tail);
    FirstMore(w.deltaStopReason, tail);
  }

  /** Every label after an accepted body with plain keys is the first non-empty text in a fixed order of places, or else
      what it was before. */
  lemma BodyLabels(decode: Bytes -> string, before: UsageTotals, p: Bytes, lead: Bytes, root: Json, trail: Bytes)
    requires IsBody(decode, p, lead, root, trail)
    ensures var how := MetadataReading(decode); var t := Finish(how, before, Run(how.scan, Before, p));
            && t.model == First(Models(decode, root) + [before.model])
            && t.stopReason == First(Reasons(decode, root) + [before.stopReason])
            && t.serviceTier == First(Tiers(decode, root) + [before.serviceTier])
            && t.speed == First(Speeds(decode, root) + [before.speed])
  {
    BodyEnds(decode, p, lead, root, trail);
    var w := WireOf(decode, TableOf(decode, p));
    ModelsRead(decode, p, lead, root, trail);
    StopsRead(decode, p, lead, root, trail);
    StatusesRead(decode, p, lead, root, trail);
    TiersRead(decode, p, lead, root, trail);
    WireLabels(before, w);
    WireReason(before, w);
    assert Reasons(decode, root) == Reasons(decode, root)[..3] + Reasons(decode, root)[3..];
    FirstBefore(Models(decode, root), before.model);
    FirstBefore(Reasons(decode, root), before.stopReason);
    FirstBefore(Tiers(decode, root), before.serviceTier);
    FirstBefore(Speeds(decode, root), before.speed);
  }

  // ----- the event of a body -----

  function EventOf(decode: Bytes -> string, p: Bytes, provider: string, requestModel: string): UsageEvent {
    BuildEvent(provider, requestModel, BodyTotals(MetadataReading(decode), p))
  }

  /** The catalogued tier for what a body names: the tier it is priced under, or `unknown`. */
  predicate IsCatalogued(provider: string, tier: string, speed: string, catalogued: string) {
    if provider == "openai" then
      if tier == "fast" then catalogued == "priority"
      else if tier in ["default", "flex", "priority", "scale"] then catalogued == tier
      else catalogued == "unknown"
    else if provider == "anthropic" && speed == "fast" then catalogued == "priority"
    else if provider == "anthropic" && tier == "priority" then catalogued == "unknown"
    else catalogued == "default"
  }

  lemma TierIsCatalogued(provider: string, t: UsageTotals)
    ensures IsCatalogued(provider, t.serviceTier, t.speed, EventTier(provider, t))
  {
  }

  lemma FirstOnly(texts: seq<string>)
    ensures First(texts + [""]) == First(texts)
  {
    FirstBefore(texts, "");
  }

  /** The event of a body names the model the body names, or else the requested one, and a catalogued tier. */
  lemma EventLabels(decode: Bytes -> string, p: Bytes, lead: Bytes, root: Json, trail: Bytes, provider: string, requestModel: string)
    requires IsBody(decode, p, lead, root, trail)
    ensures var e := EventOf(decode, p, provider, requestModel);
            && e.provider == provider
            && e.model == First(Models(decode, root) + [requestModel])
            && e.stopReason == First(Reasons(decode, root))
            && IsCatalogued(provider, First(Tiers(decode, root)), First(Speeds(decode, root)), e.serviceTier)
  {
    BodyLabels(decode, NO_USAGE, p, lead, root, trail);
    FirstOnly(Models(decode, root));
    FirstOnly(Reasons(decode, root));
    FirstOnly(Tiers(decode, root));
    FirstOnly(Speeds(decode, root));
    FirstBefore(Models(decode, root), requestModel);
    TierIsCatalogued(provider, BodyTotals(MetadataReading(decode), p));
  }

  /** The event of a body without an input count has no output count either; a count without cached parts is passed on with
      the output count; a prompt count is split into three parts that add up to it, or, when its cached parts exceed it, the
      output count is withheld. */
  lemma EventCounts(decode: Bytes -> string, p: Bytes, lead: Bytes, root: Json, trail: Bytes, place: Place, c: Counts,
                    provider: string, requestModel: string)
    requires IsBody(decode, p, lead, root, trail)
    requires forall other :: HasObject(decode, root, UsagePath(other)) <==> other == place
    requires HasCounts(decode, root, place, c)
    ensures var e := EventOf(decode, p, provider, requestModel);
            var output := if c.completion.Some? then c.completion else c.output;
            && (c.prompt.None? && c.input.None? ==> e.inputTokens == 0 && e.outputTokens.None?)
            && (c.prompt.None? && c.input.Some? && c.inputCached.None? && c.inputWritten.None? && c.creation.None? && c.read.None? ==>
                  && e.inputTokens == c.input.value && e.outputTokens == output
                  && e.cacheReadTokens == 0 && e.cacheCreationTokens == 0)
            && (c.prompt.Some? && c.promptCached.Some? && c.promptWritten.Some? && c.creation.None? ==>
                  && e.cacheReadTokens == c.promptCached.value && e.cacheCreationTokens == c.promptWritten.value
                  && if c.promptCached.value + c.promptWritten.value <= c.prompt.value
                     then e.inputTokens + e.cacheReadTokens + e.cacheCreationTokens == c.prompt.value && e.outputTokens == output
                     else e.inputTokens == 0 && e.outputTokens.None?)
  {
    BodyReports(decode, NO_USAGE, p, lead, root, trail, place, c);
  }
}
