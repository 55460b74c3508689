/** The scanner's table against a lookup in the parsed tree.
    The scanner joins keys with dots; the lookup compares whole keys, one segment at a time. */
module ScannerTable {
  import opened JsonGrammar
  import opened Scanner
  import opened ScannerReads
  import opened Allowlist

  /** One step down a tree: a member by its decoded key, or any element of an array. */
  datatype Segment = Key(name: string) | Element

  type Path = seq<Segment>

  function SegmentOf(rules: Rules, item: Item): Segment {
    match item.name
    case None => Element
    case Some(n) => Key(KeyOf(rules, n.raw))
  }

  /** What is looked for: the text of a scalar the scanner can hold, or the presence of an object. */
  datatype Want = AScalar | AnObject

  function Hit(v: Json, want: Want): Option<Bytes> {
    match v
    case Text(raw) => if want.AScalar? && |raw| <= MAX_SCALAR then Some(raw) else None
    case Literal(raw) => if want.AScalar? && |raw| <= MAX_SCALAR then Some(raw) else None
    case Group(kind, _, _) => if want.AnObject? && kind.Object? then Some("{}") else None
  }

  function OrElse<T>(first: Option<T>, second: Option<T>): Option<T> {
    if first.Some? then first else second
  }

  /** The last hit at `path` below `v`, in document order. */
  function Last(rules: Rules, v: Json, path: Path, want: Want): Option<Bytes> {
    if path == [] then Hit(v, want)
    else if v.Group? then LastItem(rules, v.items, path, want)
    else None
  }

  function LastItem(rules: Rules, items: Items, path: Path, want: Want): Option<Bytes>
    requires path != []
  {
    match items
    case Nil => None
    case Snoc(front, item) =>
      OrElse(if SegmentOf(rules, item) == path[0] then Last(rules, item.value, path[1..], want) else None,
             LastItem(rules, front, path, want))
  }

  // ----- plain keys -----

  predicate IsPlainName(name: string) {
    name != "" && name != "*" && '.' !in name
  }

  predicate IsPlainSegment(s: Segment) {
    s.Key? ==> IsPlainName(s.name)
  }

  predicate IsPlainPath(path: Path) {
    forall i :: 0 <= i < |path| ==> IsPlainSegment(path[i])
  }

  /** Every member key below `v` decodes to a name that is not empty, has no dot, and is not "*". */
  predicate HasPlainKeys(rules: Rules, v: Json) {
    v.Group? ==> ItemsHavePlainKeys(rules, v.items)
  }

  predicate ItemsHavePlainKeys(rules: Rules, items: Items) {
    items.Snoc? ==>
      ItemsHavePlainKeys(rules, items.front) && IsPlainSegment(SegmentOf(rules, items.item)) && HasPlainKeys(rules, items.item.value)
  }

  // ----- dotted paths -----

  function SegmentName(s: Segment): string {
    if s.Key? then s.name else "*"
  }

  function Dotted(path: Path): string {
    if path == [] then ""
    else
      var front := path[..|path| - 1];
      var name := SegmentName(path[|path| - 1]);
      if front == [] then name else Dotted(front) + "." + name
  }

  lemma LastDot(a: string, k: string, b: string, l: string)
    requires a + "." + k == b + "." + l && '.' !in k && '.' !in l
    ensures a == b && k == l
  {
    var s := a + "." + k;
    assert s[|a|] == '.' && s[|b|] == '.';
    assert s[..|a|] == a && s[..|a|] == b;
    assert s[|a| + 1..] == k && s[|a| + 1..] == l;
  }

  lemma DottedDots(path: Path)
    requires IsPlainPath(path)
    ensures (Dotted(path) == "") == (path == [])
    ensures ('.' in Dotted(path)) == (|path| > 1)
  {
    if |path| > 1 {
      var front := path[..|path| - 1];
      assert Dotted(path)[|Dotted(front)|] == '.';
    }
  }

  /** Plain paths with the same dotted form are the same path. */
  lemma {:induction false} DottedInjective(p: Path, q: Path)
    requires IsPlainPath(p) && IsPlainPath(q) && Dotted(p) == Dotted(q)
    ensures p == q
  {
    DottedDots(p);
    DottedDots(q);
    if |p| > 1 {
      var p', q' := p[..|p| - 1], q[..|q| - 1];
      LastDot(Dotted(p'), SegmentName(p[|p| - 1]), Dotted(q'), SegmentName(q[|q| - 1]));
      DottedInjective(p', q');
      assert p == p' + [p[|p| - 1]] && q == q' + [q[|q| - 1]];
    } else if |p| == 1 {
      assert p == [p[0]] && q == [q[0]];
    }
  }

  // ----- rules whose allowlists are closed under parents -----

  /** A path the scanner records hits of `want` at. */
  predicate IsTracked(rules: Rules, path: string, want: Want) {
    if want.AScalar? then rules.scalar(path) else rules.container(path) && IsUsagePath(path)
  }

  ghost predicate IsClosed(rules: Rules) {
    && rules.container("") && !rules.container(HIDDEN) && !rules.scalar(HIDDEN)
    && (forall path: string :: rules.scalar(path) ==> !IsUsagePath(path))
    && (forall path: Path, s: Segment :: IsPlainPath(path + [s]) && (rules.scalar(Dotted(path + [s])) || rules.container(Dotted(path + [s])))
         ==> rules.container(Dotted(path)))
  }

  /** The path the scanner gives to what stands at `path`. */
  function ScannerPath(rules: Rules, path: Path): string {
    if path == [] then ""
    else Join(GroupPath(rules, ScannerPath(rules, path[..|path| - 1])), SegmentName(path[|path| - 1]))
  }

  /** The scanner's path is the dotted one while every group above is allowlisted, and hidden after that. */
  lemma {:induction false} ScannerPathDotted(rules: Rules, path: Path)
    requires IsClosed(rules) && IsPlainPath(path)
    ensures ScannerPath(rules, path) == Dotted(path) || ScannerPath(rules, path) == HIDDEN
    ensures rules.scalar(Dotted(path)) || rules.container(Dotted(path)) ==> ScannerPath(rules, path) == Dotted(path)
  {
    if path != [] {
      var front := path[..|path| - 1];
      var last := path[|path| - 1];
      assert front + [last] == path;
      ScannerPathDotted(rules, front);
      DottedDots(front);
    }
  }

  lemma TrackedPath(rules: Rules, path: Path, target: Path, want: Want)
    requires IsClosed(rules) && IsPlainPath(path) && IsPlainPath(target) && IsTracked(rules, Dotted(target), want)
    ensures ScannerPath(rules, path) == Dotted(target) <==> path == target
  {
    ScannerPathDotted(rules, path);
    if ScannerPath(rules, path) == Dotted(target) {
      assert Dotted(target) != HIDDEN;
      DottedInjective(path, target);
    }
  }

  function Get(table: Table, path: string): Option<Bytes> {
    if path in table then Some(table[path]) else None
  }

  /** What a value at `path` adds to the table at a tracked path. */
  function Added(rules: Rules, v: Json, path: Path, target: Path, want: Want): Option<Bytes> {
    if path <= target then Last(rules, v, target[|path|..], want) else None
  }

  lemma {:induction false} StoreIsLast(rules: Rules, v: Json, path: Path, table: Table, target: Path, want: Want)
    requires IsClosed(rules) && IsPlainPath(path) && IsPlainPath(target) && IsTracked(rules, Dotted(target), want)
    requires HasPlainKeys(rules, v)
    ensures Get(Store(rules, v, ScannerPath(rules, path), table), Dotted(target))
            == OrElse(Added(rules, v, path, target, want), Get(table, Dotted(target)))
  {
    TrackedPath(rules, path, target, want);
    if v.Group? {
      var inner := GroupPath(rules, ScannerPath(rules, path));
      StoreItemsIsLast(rules, v.items, path, MarkUsage(v.kind, inner, table), target, want);
    }
  }

  /** What the items of a group at `path` add. */
  function ItemsAdded(rules: Rules, items: Items, path: Path, target: Path, want: Want): Option<Bytes> {
    if path < target then LastItem(rules, items, target[|path|..], want) else None
  }

  lemma {:induction false} StoreItemsIsLast(rules: Rules, items: Items, path: Path, table: Table, target: Path, want: Want)
    requires IsClosed(rules) && IsPlainPath(path) && IsPlainPath(target) && IsTracked(rules, Dotted(target), want)
    requires ItemsHavePlainKeys(rules, items)
    ensures Get(StoreItems(rules, items, GroupPath(rules, ScannerPath(rules, path)), table), Dotted(target))
            == OrElse(ItemsAdded(rules, items, path, target, want), Get(table, Dotted(target)))
  {
    if items.Snoc? {
      var inner := GroupPath(rules, ScannerPath(rules, path));
      var segment := SegmentOf(rules, items.item);
      var child := path + [segment];
      StoreItemsIsLast(rules, items.front, path, table, target, want);
      assert child[..|path|] == path;
      assert ScannerPath(rules, child) == Join(inner, ItemKey(rules, items.item));
      StoreIsLast(rules, items.item.value, child, StoreItems(rules, items.front, inner, table), target, want);
      ChildPrefix(path, segment, target);
    }
  }

  lemma ChildPrefix(path: Path, segment: Segment, target: Path)
    ensures path + [segment] <= target <==> path < target && target[|path|] == segment
    ensures path < target ==> target[|path|..][0] == target[|path|] && target[|path|..][1..] == target[|path| + 1..]
  {
    if path < target && target[|path|] == segment {
      assert path + [segment] == target[..|path| + 1];
    }
    if path + [segment] <= target {
      assert target[|path|] == (path + [segment])[|path|];
      assert target[..|path|] == (path + [segment])[..|path|];
    }
  }

  // ----- the allowlists of the scanner are closed under parents -----

  lemma NoDot(a: string, k: string, whole: string)
    requires '.' !in whole
    ensures a + "." + k != whole
  {
  }

  lemma NestedScalarParent(a: string, k: string)
    requires '.' !in k && IsNestedScalar(Dot(a, k))
    ensures IsRootContainer(a) || IsNestedContainer(a)
    ensures k != "usage"
  {
    var path := Dot(a, k);
    if path == Dot("message", "model") { LastDot(a, k, "message", "model"); }
    else if path == Dot("response", "model") { LastDot(a, k, "response", "model"); }
    else if path == Dot("response", "service_tier") { LastDot(a, k, "response", "service_tier"); }
    else if path == Dot("response", "status") { LastDot(a, k, "response", "status"); }
    else if path == Dot("delta", "stop_reason") { LastDot(a, k, "delta", "stop_reason"); }
    else if path == Dot(Dot("choices", "*"), "finish_reason") { LastDot(a, k, Dot("choices", "*"), "finish_reason"); }
    else if path == Dot("incomplete_details", "reason") { LastDot(a, k, "incomplete_details", "reason"); }
    else { LastDot(a, k, Dot("response", "incomplete_details"), "reason"); }
  }

  lemma NestedContainerParent(a: string, k: string)
    requires '.' !in k && IsNestedContainer(Dot(a, k))
    ensures IsRootContainer(a)
  {
    var path := Dot(a, k);
    if path == Dot("message", "usage") { LastDot(a, k, "message", "usage"); }
    else if path == Dot("response", "usage") { LastDot(a, k, "response", "usage"); }
    else if path == Dot("choices", "*") { LastDot(a, k, "choices", "*"); }
    else { LastDot(a, k, "response", "incomplete_details"); }
  }

  lemma RootsHaveNoDot(path: string)
    requires IsRootScalar(path) || IsRootContainer(path)
    ensures '.' !in path
  {
  }

  /** `field` splits at its last dot into `details` and a plain name. */
  lemma DetailSplit(field: string) returns (details: string, name: string)
    requires IsDetailCounter(field)
    ensures IsDetails(details) && '.' !in name && name != "usage" && field == Dot(details, name)
  {
    details := if field == Dot("prompt_tokens_details", "cached_tokens") || field == Dot("prompt_tokens_details", "cache_write_tokens")
               then "prompt_tokens_details" else "input_tokens_details";
    name := if field == Dot(details, "cached_tokens") then "cached_tokens" else "cache_write_tokens";
  }

  lemma FieldHasNoDot(field: string)
    requires IsDetails(field) || IsCounter(field)
    ensures '.' !in field && field != "usage"
  {
  }

  /** The parent of a path under a usage object is that object or one of its details objects. */
  lemma UsageParent(usage: string, a: string, k: string, field: string)
    requires '.' !in k && a + "." + k == usage + "." + field
    requires IsDetails(field) || IsCounter(field) || IsDetailCounter(field)
    ensures a == usage || exists details: string :: IsDetails(details) && a == usage + "." + details
    ensures k != "usage"
  {
    if IsDetailCounter(field) {
      var details, name := DetailSplit(field);
      assert usage + "." + (details + "." + name) == (usage + "." + details) + "." + name;
      LastDot(a, k, usage + "." + details, name);
    } else {
      FieldHasNoDot(field);
      LastDot(a, k, usage, field);
    }
  }

  lemma DetailsAreContainers(usage: string, details: string)
    requires usage == "usage" || usage == "message.usage" || usage == "response.usage"
    requires IsDetails(details)
    ensures MetadataContainer(usage + "." + details)
  {
    var path := usage + "." + details;
    assert path[|usage + "."|..] == details && path[..|usage + "."|] == usage + ".";
    assert AfterPrefix(usage + ".", path) == Some(details);
  }

  lemma UnderUsageParent(usage: string, a: string, k: string, field: string)
    requires usage == "usage" || usage == "message.usage" || usage == "response.usage"
    requires '.' !in k && AfterPrefix(usage + ".", a + "." + k) == Some(field)
    requires IsDetails(field) || IsUsageField(field)
    ensures MetadataContainer(a) && k != "usage"
  {
    var path := a + "." + k;
    assert path == path[..|usage + "."|] + path[|usage + "."|..];
    assert path == usage + "." + field;
    UsageParent(usage, a, k, field);
    if a != usage {
      var details: string :| IsDetails(details) && a == usage + "." + details;
      DetailsAreContainers(usage, details);
    }
  }

  predicate IsDetailsOrField(field: string) {
    IsDetails(field) || IsUsageField(field)
  }

  lemma ParentIsContainer(a: string, k: string)
    requires '.' !in k && (MetadataScalar(a + "." + k) || MetadataContainer(a + "." + k))
    ensures MetadataContainer(a)
  {
    var path := a + "." + k;
    if IsRootScalar(path) || IsRootContainer(path) {
      RootsHaveNoDot(path);
      NoDot(a, k, path);
    } else if IsNestedScalar(path) {
      NestedScalarParent(a, k);
    } else if IsNestedContainer(path) {
      NestedContainerParent(a, k);
    } else {
      assert UnderUsage(path, IsDetailsOrField);
      UnderUsageParents(a, k);
    }
  }

  lemma UnderUsageParents(a: string, k: string)
    requires '.' !in k && UnderUsage(a + "." + k, IsDetailsOrField)
    ensures MetadataContainer(a) && k != "usage"
  {
    var path := a + "." + k;
    if AfterPrefix("usage.", path).Some? && IsDetailsOrField(AfterPrefix("usage.", path).value) {
      UnderUsageParent("usage", a, k, AfterPrefix("usage.", path).value);
    } else if AfterPrefix("message.usage.", path).Some? && IsDetailsOrField(AfterPrefix("message.usage.", path).value) {
      UnderUsageParent("message.usage", a, k, AfterPrefix("message.usage.", path).value);
    } else {
      UnderUsageParent("response.usage", a, k, AfterPrefix("response.usage.", path).value);
    }
  }

  lemma ScalarIsNotUsage(path: string)
    requires MetadataScalar(path)
    ensures !IsUsagePath(path)
  {
    if HasSuffix(path, ".usage") {
      var a := path[..|path| - 6];
      assert path == a + "." + "usage";
      ScalarIsNotNamedUsage(a, "usage");
    }
  }

  lemma ScalarIsNotNamedUsage(a: string, k: string)
    requires '.' !in k && MetadataScalar(a + "." + k)
    ensures k != "usage"
  {
    var path := a + "." + k;
    if IsRootScalar(path) {
      RootsHaveNoDot(path);
      NoDot(a, k, path);
    } else if IsNestedScalar(path) {
      NestedScalarParent(a, k);
    } else {
      assert UnderUsage(path, IsDetailsOrField);
      UnderUsageParents(a, k);
    }
  }

  lemma MetadataRulesClosed(decode: Bytes -> string)
    ensures IsClosed(MetadataRules(decode))
  {
    var rules := MetadataRules(decode);
    forall path: Path, s: Segment
      | IsPlainPath(path + [s]) && (MetadataScalar(Dotted(path + [s])) || MetadataContainer(Dotted(path + [s])))
      ensures MetadataContainer(Dotted(path))
    {
      DottedParent(path, s);
    }
    forall path: string | MetadataScalar(path) ensures !IsUsagePath(path) {
      ScalarIsNotUsage(path);
    }
  }

  lemma DottedParent(path: Path, s: Segment)
    requires IsPlainPath(path + [s]) && (MetadataScalar(Dotted(path + [s])) || MetadataContainer(Dotted(path + [s])))
    ensures MetadataContainer(Dotted(path))
  {
    assert (path + [s])[..|path|] == path;
    assert IsPlainSegment((path + [s])[|path|]);
    if path != [] {
      ParentIsContainer(Dotted(path), SegmentName(s));
    }
  }

  // ----- main results about the table -----

  /** For a document with plain keys, the scanner's table at every tracked path is the last hit there in the tree. */
  lemma TableIsLookup(decode: Bytes -> string, p: Bytes, lead: Bytes, root: Json, trail: Bytes, target: Path, want: Want)
    requires IsDocumentOf(p, lead, root, trail)
    requires HasPlainKeys(MetadataRules(decode), root)
    requires IsPlainPath(target) && IsTracked(MetadataRules(decode), Dotted(target), want)
    ensures var rules := MetadataRules(decode);
            && Run(rules, Before, p).After?
            && Get(Run(rules, Before, p).table, Dotted(target)) == Last(rules, root, target, want)
  {
    var rules := MetadataRules(decode);
    MetadataRulesClosed(decode);
    DocumentIsAccepted(rules, p, lead, root, trail);
    StoreItemsIsLast(rules, root.items, [], map[], target, want);
    assert ScannerPath(rules, []) == "";
    assert target[0..] == target;
    if target == [] {
      assert Dotted(target) == "";
    }
  }

  function Unquote(raw: Bytes): string {
    if |raw| >= 2 then raw[1..|raw| - 1] else ""
  }

  function Member(key: Bytes, value: Json): Json {
    Group(Object, [], Snoc(Nil, Item([], Some(Name(key, [], [])), value, [])))
  }

  /** Each condition on keys is needed: a dotted key, an empty key and a key "*" each alias a tracked path. */
  lemma KeysMustBePlain()
    ensures var rules := MetadataRules(Unquote);
            var dotted := Member("\"delta.stop_reason\"", Literal("5"));
            Get(Stored(rules, dotted), "delta.stop_reason") == Some("5")
            && Last(rules, dotted, [Key("delta"), Key("stop_reason")], AScalar) == None
    ensures var rules := MetadataRules(Unquote);
            var empty := Member("\"\"", Member("\"model\"", Literal("5")));
            Get(Stored(rules, empty), "model") == Some("5") && Last(rules, empty, [Key("model")], AScalar) == None
    ensures var rules := MetadataRules(Unquote);
            var star := Member("\"choices\"", Member("\"*\"", Member("\"finish_reason\"", Literal("5"))));
            Get(Stored(rules, star), "choices.*.finish_reason") == Some("5")
            && Last(rules, star, [Key("choices"), Element, Key("finish_reason")], AScalar) == None
  {
    DottedAlias();
    EmptyAlias();
    StarAlias();
  }

  /** A one-member object stores its value at the joined key. */
  lemma StoreMember(key: Bytes, value: Json, path: string, table: Table)
    requires |key| <= MAX_SCALAR
    ensures var rules := MetadataRules(Unquote);
            var inner := GroupPath(rules, path);
            Store(rules, Member(key, value), path, table)
            == Store(rules, value, Join(inner, Unquote(key)), MarkUsage(Object, inner, table))
  {
    var rules := MetadataRules(Unquote);
    var inner := GroupPath(rules, path);
    var items := Member(key, value).items;
    assert StoreItems(rules, items.front, inner, MarkUsage(Object, inner, table)) == MarkUsage(Object, inner, table);
  }

  /** A lookup in a one-member object compares the whole key. */
  lemma LastMember(key: Bytes, value: Json, path: Path, want: Want)
    requires |key| <= MAX_SCALAR && path != []
    ensures Last(MetadataRules(Unquote), Member(key, value), path, want)
            == if path[0] == Key(Unquote(key)) then Last(MetadataRules(Unquote), value, path[1..], want) else None
  {
    var items := Member(key, value).items;
    assert LastItem(MetadataRules(Unquote), items.front, path, want) == None;
  }

  lemma DottedAlias()
    ensures var rules := MetadataRules(Unquote);
            var dotted := Member("\"delta.stop_reason\"", Literal("5"));
            Get(Stored(rules, dotted), "delta.stop_reason") == Some("5")
            && Last(rules, dotted, [Key("delta"), Key("stop_reason")], AScalar) == None
  {
    var key := "\"delta.stop_reason\"";
    assert Unquote(key) == "delta.stop_reason" == Dot("delta", "stop_reason");
    StoreMember(key, Literal("5"), "", map[]);
    assert Unquote(key)[5] == '.';
    LastMember(key, Literal("5"), [Key("delta"), Key("stop_reason")], AScalar);
  }

  lemma EmptyAlias()
    ensures var rules := MetadataRules(Unquote);
            var empty := Member("\"\"", Member("\"model\"", Literal("5")));
            Get(Stored(rules, empty), "model") == Some("5") && Last(rules, empty, [Key("model")], AScalar) == None
  {
    var inner := Member("\"model\"", Literal("5"));
    assert Unquote("\"\"") == "" && Unquote("\"model\"") == "model";
    StoreMember("\"\"", inner, "", map[]);
    StoreMember("\"model\"", Literal("5"), "", map[]);
    LastMember("\"\"", inner, [Key("model")], AScalar);
  }

  lemma StarAlias()
    ensures var rules := MetadataRules(Unquote);
            var star := Member("\"choices\"", Member("\"*\"", Member("\"finish_reason\"", Literal("5"))));
            Get(Stored(rules, star), "choices.*.finish_reason") == Some("5")
            && Last(rules, star, [Key("choices"), Element, Key("finish_reason")], AScalar) == None
  {
    StarStored();
    var last := Member("\"finish_reason\"", Literal("5"));
    var path: Path := [Key("choices"), Element, Key("finish_reason")];
    LastMember("\"choices\"", Member("\"*\"", last), path, AScalar);
    LastMember("\"*\"", last, path[1..], AScalar);
  }

  lemma StarStored()
    ensures var star := Member("\"choices\"", Member("\"*\"", Member("\"finish_reason\"", Literal("5"))));
            Get(Stored(MetadataRules(Unquote), star), "choices.*.finish_reason") == Some("5")
  {
    var rules := MetadataRules(Unquote);
    var last := Member("\"finish_reason\"", Literal("5"));
    var middle := Member("\"*\"", last);
    StarPaths();
    StoreMember("\"choices\"", middle, "", map[]);
    StoreMember("\"*\"", last, "choices", map[]);
    StoreMember("\"finish_reason\"", Literal("5"), Dot("choices", "*"), map[]);
    assert Store(rules, Literal("5"), Dot(Dot("choices", "*"), "finish_reason"), map[])
        == map[Dot(Dot("choices", "*"), "finish_reason") := "5"];
  }

  lemma StarPaths()
    ensures Unquote("\"finish_reason\"") == "finish_reason" && Unquote("\"*\"") == "*" && Unquote("\"choices\"") == "choices"
    ensures Join("", "choices") == "choices" && Join("choices", "*") == Dot("choices", "*")
    ensures Join(Dot("choices", "*"), "finish_reason") == Dot(Dot("choices", "*"), "finish_reason") == "choices.*.finish_reason"
    ensures MetadataContainer("") && MetadataContainer("choices") && MetadataContainer(Dot("choices", "*"))
    ensures MetadataScalar(Dot(Dot("choices", "*"), "finish_reason"))
    ensures !IsUsagePath("") && !IsUsagePath("choices") && !IsUsagePath(Dot("choices", "*"))
  {
    assert Dot("choices", "*") == "choices.*";
  }
}
