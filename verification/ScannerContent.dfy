/** What the scanner can hold, at any point of any input, and what it can never depend on. */
module ScannerContent {
  import opened JsonGrammar
  import opened Scanner
  import opened ScannerReads

  // ----- bounds on everything kept between bytes -----

  ghost predicate IsBounded(rules: Rules, s: State) {
    && (s.Inside? ==> |s.frames| <= MAX_DEPTH)
    && (s.Inside? ==> forall i :: 0 <= i < |s.frames| ==> s.frames[i].path == HIDDEN || rules.container(s.frames[i].path))
    && (s.Inside? || s.After? ==>
        forall path :: path in s.table ==>
          && |s.table[path]| <= MAX_SCALAR
          && (rules.scalar(path) || (rules.container(path) && IsUsagePath(path) && s.table[path] == "{}")))
  }

  lemma StepBetweenBounded(rules: Rules, s: State, b: char)
    requires Valid(s) && s.Inside? && s.mode.Between? && IsBounded(rules, s)
    ensures IsBounded(rules, StepBetween(rules, s, b))
  {
    var r := StepBetween(rules, s, b);
    if r.Inside? && |r.frames| > |s.frames| {
      var inner := Top(r.frames).path;
      assert inner == HIDDEN ==> !IsUsagePath(inner);
    }
  }

  /** After any input at all: at most 64 open groups, every group path allowlisted or hidden,
      every recorded path allowlisted, every recorded text at most 1024 bytes. */
  lemma {:induction false} AlwaysBounded(rules: Rules, p: Bytes)
    requires rules.container("")
    ensures IsBounded(rules, Run(rules, Before, p))
  {
    if p != [] {
      AlwaysBounded(rules, p[..|p| - 1]);
      var s := Run(rules, Before, p[..|p| - 1]);
      if s.Inside? {
        var t := Settle(rules, s);
        assert IsBounded(rules, t);
        if t.Inside? && t.mode.Between? {
          StepBetweenBounded(rules, t, p[|p| - 1]);
        }
      }
    }
  }

  // ----- content is discarded -----

  /** The same tree with every scalar outside the allowlist replaced by null. */
  function Redact(rules: Rules, v: Json, path: string): Json {
    match v
    case Text(_) => if rules.scalar(path) then v else Literal("null")
    case Literal(_) => if rules.scalar(path) then v else Literal("null")
    case Group(kind, pad, items) => Group(kind, pad, RedactItems(rules, items, GroupPath(rules, path)))
  }

  function RedactItems(rules: Rules, items: Items, path: string): Items {
    match items
    case Nil => Nil
    case Snoc(front, item) =>
      Snoc(RedactItems(rules, front, path), item.(value := Redact(rules, item.value, Join(path, ItemKey(rules, item)))))
  }

  lemma {:induction false} RedactStores(rules: Rules, v: Json, path: string, table: Table)
    ensures Store(rules, Redact(rules, v, path), path, table) == Store(rules, v, path, table)
  {
    if v.Group? {
      var inner := GroupPath(rules, path);
      RedactStoresItems(rules, v.items, inner, MarkUsage(v.kind, inner, table));
    }
  }

  lemma {:induction false} RedactStoresItems(rules: Rules, items: Items, path: string, table: Table)
    ensures StoreItems(rules, RedactItems(rules, items, path), path, table) == StoreItems(rules, items, path, table)
  {
    if items.Snoc? {
      RedactStoresItems(rules, items.front, path, table);
      RedactStores(rules, items.item.value, Join(path, ItemKey(rules, items.item)), StoreItems(rules, items.front, path, table));
    }
  }

  lemma {:induction false} RedactFits(rules: Rules, v: Json, path: string, room: nat)
    requires WellFormed(v) && Fits(v, room)
    ensures WellFormed(Redact(rules, v, path)) && Fits(Redact(rules, v, path), room)
  {
    if v.Group? { RedactItemsFit(rules, v.items, v.kind, GroupPath(rules, path), room - 1); }
  }

  lemma {:induction false} RedactItemsFit(rules: Rules, items: Items, kind: Kind, path: string, room: nat)
    requires WellFormedItems(items, kind) && ItemsFit(items, room)
    ensures WellFormedItems(RedactItems(rules, items, path), kind) && ItemsFit(RedactItems(rules, items, path), room)
  {
    if items.Snoc? {
      RedactItemsFit(rules, items.front, kind, path, room);
      assert WellFormedItem(items.item, kind);
      RedactFits(rules, items.item.value, Join(path, ItemKey(rules, items.item)), room);
      assert WellFormedItem(RedactItems(rules, items, path).item, kind);
    }
  }

  /** A document and its redaction, which carries no scalar outside the allowlist, leave the same state. */
  lemma RedactionReadsTheSame(rules: Rules, p: Bytes, lead: Bytes, root: Json, trail: Bytes)
    requires rules.container("") && IsDocumentOf(p, lead, root, trail)
    ensures var q := lead + JsonText(Redact(rules, root, "")) + trail;
            IsDocument(q) && Run(rules, Before, q) == Run(rules, Before, p)
  {
    var clean := Redact(rules, root, "");
    var q := lead + JsonText(clean) + trail;
    RedactFits(rules, root, "", MAX_DEPTH);
    assert IsDocumentOf(q, lead, clean, trail);
    DocumentIsAccepted(rules, p, lead, root, trail);
    DocumentIsAccepted(rules, q, lead, clean, trail);
    RedactStoresItems(rules, root.items, "", map[]);
  }

  /** Two documents that differ only in scalars outside the allowlist and in outer whitespace leave the same state. */
  lemma ContentIsDiscarded(rules: Rules, p: Bytes, lead: Bytes, root: Json, trail: Bytes, q: Bytes, lead': Bytes, root': Json, trail': Bytes)
    requires rules.container("")
    requires IsDocumentOf(p, lead, root, trail) && IsDocumentOf(q, lead', root', trail')
    requires Redact(rules, root, "") == Redact(rules, root', "")
    ensures Run(rules, Before, p) == Run(rules, Before, q)
  {
    DocumentIsAccepted(rules, p, lead, root, trail);
    DocumentIsAccepted(rules, q, lead', root', trail');
    RedactStoresItems(rules, root.items, "", map[]);
    RedactStoresItems(rules, root'.items, "", map[]);
  }
}
