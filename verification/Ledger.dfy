/** The hash-chained ledger: reopening, appending and verifying, over any hash function. */
module Ledger {
  import opened JsonGrammar
  import opened Decimals

  datatype Record = Record(seqno: int, time: string, kind: string, payload: string, prev: string, hash: string)

  /** The digest in hexadecimal, and what a JSON string holds after it was written to a line and read back. */
  datatype Rules = Rules(digest: string -> string, reread: string -> string)

  // ----- the hash of a record -----

  function HashInput(r: Record): string {
    IntegerText(r.seqno) + "\n" + (r.time + "\n" + (r.kind + "\n" + (r.prev + "\n" + r.payload)))
  }

  predicate IsLine(text: string) {
    '\n' !in text
  }

  lemma IntegerTextIsLine(n: int)
    ensures IsLine(IntegerText(n))
  {
    DecimalIsDigits(if n < 0 then -n else n);
  }

  /** The first line of a text is determined by the text. */
  lemma FirstLine(a: string, x: string, b: string, y: string)
    requires IsLine(a) && IsLine(b) && a + "\n" + x == b + "\n" + y
    ensures a == b && x == y
  {
    var t := a + "\n" + x;
    assert t[|a|] == '\n' && t[|b|] == '\n';
    assert forall k :: 0 <= k < |a| ==> t[k] == a[k] && a[k] in a;
    assert forall k :: 0 <= k < |b| ==> t[k] == b[k] && b[k] in b;
    assert t[..|a|] == a && t[..|b|] == b;
    assert t[|a| + 1..] == x && t[|b| + 1..] == y;
  }

  /** Records with one-line time, type and previous hash are told apart by what is hashed. */
  lemma HashInputIsInjective(r: Record, s: Record)
    requires IsLine(r.time) && IsLine(r.kind) && IsLine(r.prev)
    requires IsLine(s.time) && IsLine(s.kind) && IsLine(s.prev)
    requires HashInput(r) == HashInput(s)
    ensures r.seqno == s.seqno && r.time == s.time && r.kind == s.kind && r.prev == s.prev && r.payload == s.payload
  {
    IntegerTextIsLine(r.seqno);
    IntegerTextIsLine(s.seqno);
    FirstLine(IntegerText(r.seqno), r.time + "\n" + (r.kind + "\n" + (r.prev + "\n" + r.payload)),
              IntegerText(s.seqno), s.time + "\n" + (s.kind + "\n" + (s.prev + "\n" + s.payload)));
    FirstLine(r.time, r.kind + "\n" + (r.prev + "\n" + r.payload), s.time, s.kind + "\n" + (s.prev + "\n" + s.payload));
    FirstLine(r.kind, r.prev + "\n" + r.payload, s.kind, s.prev + "\n" + s.payload);
    FirstLine(r.prev, r.payload, s.prev, s.payload);
    IntegerTextIsInjective(r.seqno, s.seqno);
  }

  // ----- the chain -----

  function Tip(records: seq<Record>): string {
    if records == [] then "" else records[|records| - 1].hash
  }

  predicate IsNext(records: seq<Record>, r: Record, digest: string -> string) {
    r.seqno == |records| + 1 && r.prev == Tip(records) && r.hash == digest(HashInput(r))
  }

  predicate IsChain(records: seq<Record>, digest: string -> string) {
    forall i :: 0 <= i < |records| ==> IsNext(records[..i], records[i], digest)
  }

  /** Verification accepts exactly the chains, and otherwise names the first record that does not fit. */
  method VerifyRecords(records: seq<Record>, digest: string -> string) returns (bad: Option<nat>)
    ensures bad.None? <==> IsChain(records, digest)
    ensures bad.Some? ==> bad.value < |records| && IsChain(records[..bad.value], digest) && !IsNext(records[..bad.value], records[bad.value], digest)
  {
    var prev := "";
    for i := 0 to |records|
      invariant prev == Tip(records[..i])
      invariant forall j :: 0 <= j < i ==> IsNext(records[..j], records[j], digest)
    {
      var r := records[i];
      if r.seqno != i + 1 || r.prev != prev || digest(HashInput(r)) != r.hash {
        assert forall j :: 0 <= j < i ==> records[..i][..j] == records[..j];
        assert !IsNext(records[..i], records[i], digest);
        return Some(i);
      }
      prev := r.hash;
      assert records[..i + 1][i] == r;
    }
    bad := None;
  }

  lemma PrefixIsChain(records: seq<Record>, digest: string -> string, n: nat)
    requires IsChain(records, digest) && n <= |records|
    ensures IsChain(records[..n], digest)
  {
    forall i | 0 <= i < n ensures IsNext(records[..n][..i], records[..n][i], digest) {
      assert records[..n][..i] == records[..i];
      assert IsNext(records[..i], records[i], digest);
    }
  }

  lemma ChainMore(records: seq<Record>, r: Record, digest: string -> string)
    ensures IsChain(records + [r], digest) <==> IsChain(records, digest) && IsNext(records, r, digest)
  {
    var all := records + [r];
    assert all[..|records|] == records && all[|records|] == r;
    if IsChain(all, digest) {
      PrefixIsChain(all, digest, |records|);
      assert IsNext(all[..|records|], all[|records|], digest);
    } else {
      var i :| 0 <= i < |all| && !IsNext(all[..i], all[i], digest);
      if i < |records| { assert all[..i] == records[..i] && all[i] == records[i]; }
    }
  }

  /** Digests are one non-empty line. */
  ghost predicate IsDigest(digest: string -> string) {
    forall x :: digest(x) != "" && IsLine(digest(x))
  }

  predicate HasLines(records: seq<Record>) {
    forall i :: 0 <= i < |records| ==> IsLine(records[i].time) && IsLine(records[i].kind)
  }

  lemma TipIsLine(records: seq<Record>, digest: string -> string)
    requires IsChain(records, digest) && IsDigest(digest)
    ensures IsLine(Tip(records)) && (Tip(records) == "" <==> records == [])
  {
    if records != [] {
      assert IsNext(records[..|records| - 1], records[|records| - 1], digest);
    }
  }

  /** Records at the ends of two ledgers that agree in what was hashed agree altogether, and so do the tips before them. */
  lemma LastRecordsAgree(a: seq<Record>, r: Record, b: seq<Record>, s: Record, digest: string -> string)
    requires IsNext(a, r, digest) && IsNext(b, s, digest) && HashInput(r) == HashInput(s)
    requires IsLine(Tip(a)) && IsLine(Tip(b)) && IsLine(r.time) && IsLine(r.kind) && IsLine(s.time) && IsLine(s.kind)
    ensures r == s && |a| == |b| && Tip(a) == Tip(b)
  {
    HashInputIsInjective(r, s);
  }

  lemma Shortened(a: seq<Record>, digest: string -> string)
    requires a != [] && IsChain(a, digest) && HasLines(a)
    ensures IsNext(a[..|a| - 1], a[|a| - 1], digest)
    ensures IsChain(a[..|a| - 1], digest) && HasLines(a[..|a| - 1]) && IsLine(a[|a| - 1].time) && IsLine(a[|a| - 1].kind)
    ensures a == a[..|a| - 1] + [a[|a| - 1]]
  {
    PrefixIsChain(a, digest, |a| - 1);
  }

  /** The tip fixes the whole ledger: two accepted ledgers with one-line times and types and the same tip are the same
      record by record, or contain two texts with the same digest. */
  lemma {:induction false} TipFixesTheLedger(a: seq<Record>, b: seq<Record>, digest: string -> string) returns (x: string, y: string)
    requires IsDigest(digest) && IsChain(a, digest) && IsChain(b, digest) && HasLines(a) && HasLines(b)
    requires Tip(a) == Tip(b)
    ensures a == b || (x != y && digest(x) == digest(y))
    decreases |a|
  {
    x, y := "", "";
    TipIsLine(a, digest);
    TipIsLine(b, digest);
    if a != [] {
      var p, q := a[..|a| - 1], b[..|b| - 1];
      Shortened(a, digest);
      Shortened(b, digest);
      x, y := HashInput(a[|a| - 1]), HashInput(b[|b| - 1]);
      if x == y {
        TipIsLine(p, digest);
        TipIsLine(q, digest);
        LastRecordsAgree(p, a[|a| - 1], q, b[|b| - 1], digest);
        x, y := TipFixesTheLedger(p, q, digest);
      }
    }
  }

  /** One-line times and types are needed: a line break moved from the type into the time changes no hash. */
  lemma LineBreaksMove(digest: string -> string) returns (a: seq<Record>, b: seq<Record>)
    ensures a != b && IsChain(a, digest) && IsChain(b, digest) && Tip(a) == Tip(b)
  {
    var r := Record(1, "t\nx", "y", "{}", "", "");
    var s := Record(1, "t", "x\ny", "{}", "", "");
    assert "t\nx" + "\n" + ("y" + "\n" + ("" + "\n" + "{}")) == "t" + "\n" + ("x\ny" + "\n" + ("" + "\n" + "{}"));
    a := [r.(hash := digest(HashInput(r)))];
    b := [s.(hash := digest(HashInput(s)))];
    assert HashInput(a[0]) == HashInput(r) && HashInput(b[0]) == HashInput(s);
    assert a[0].kind != b[0].kind;
  }

  // ----- the open ledger -----

  /** The file, as the records its lines hold. */
  class File {
    var records: seq<Record>
    constructor ()
      ensures records == []
    {
      records := [];
    }
  }

  class OpenLedger {
    const file: File
    const rules: Rules
    var lastHash: string
    var seqno: int

    /** The file verifies and this ledger knows its tip. */
    predicate Valid()
      reads this, file
    {
      IsChain(file.records, rules.digest) && lastHash == Tip(file.records) && seqno == |file.records|
    }

    constructor (file: File, rules: Rules)
      requires IsChain(file.records, rules.digest)
      ensures Valid() && this.file == file && this.rules == rules
    {
      this.file := file;
      this.rules := rules;
      var n := |file.records|;
      lastHash := if n > 0 then file.records[n - 1].hash else "";
      seqno := if n > 0 then file.records[n - 1].seqno else 0;
      if n > 0 { assert IsNext(file.records[..n - 1], file.records[n - 1], rules.digest); }
    }

    /** A successful append. The file then verifies, with this ledger at its tip, if the type survives being written;
        if it does not, the file verifies only when two texts have the same digest. */
    method Append(time: string, kind: string, payload: string) returns (r: Record)
      requires Valid() && rules.reread(time) == time
      modifies this, file
      ensures lastHash == r.hash && seqno == r.seqno
      ensures r.time == time && r.kind == kind && r.payload == payload && IsNext(old(file.records), r, rules.digest)
      ensures file.records == old(file.records) + [r.(kind := rules.reread(kind))]
      ensures rules.reread(kind) == kind ==> Valid()
      ensures rules.reread(kind) != kind && IsChain(file.records, rules.digest) ==>
                rules.digest(HashInput(r)) == rules.digest(HashInput(r.(kind := rules.reread(kind))))
    {
      r := Record(seqno + 1, time, kind, payload, lastHash, "");
      r := r.(hash := rules.digest(HashInput(r)));
      assert HashInput(r) == HashInput(r.(hash := ""));
      ghost var was := file.records;
      var line := r.(kind := rules.reread(kind));
      file.records := file.records + [line];
      lastHash := r.hash;
      seqno := r.seqno;
      ChainMore(was, line, rules.digest);
      assert HashInput(line) == HashInput(line.(hash := ""));
    }
  }

  /** Opening refuses a file that does not verify. */
  method Open(file: File, rules: Rules) returns (ledger: Option<OpenLedger>)
    ensures ledger.Some? <==> IsChain(file.records, rules.digest)
    ensures ledger.Some? ==> fresh(ledger.value) && ledger.value.Valid() && ledger.value.file == file && ledger.value.rules == rules
  {
    var bad := VerifyRecords(file.records, rules.digest);
    if bad.Some? { return None; }
    var l := new OpenLedger(file, rules);
    ledger := Some(l);
  }

  /** What a ledger that remembers `seqno` and `lastHash` appends keeps the file verifying exactly when it is at the tip;
      a second ledger open on the same file breaks the chain. */
  lemma AppendsOnlyAtTheTip(records: seq<Record>, seqno: int, lastHash: string, time: string, kind: string, payload: string, digest: string -> string)
    requires IsChain(records, digest)
    ensures var r := Record(seqno + 1, time, kind, payload, lastHash, "");
            IsChain(records + [r.(hash := digest(HashInput(r)))], digest) <==> seqno == |records| && lastHash == Tip(records)
  {
    var r := Record(seqno + 1, time, kind, payload, lastHash, "");
    var h := r.(hash := digest(HashInput(r)));
    assert HashInput(h) == HashInput(r);
    ChainMore(records, h, digest);
  }

  // ----- any number of appends, reopened in between -----

  datatype Entry = Entry(time: string, kind: string, payload: string)

  function EntriesOf(records: seq<Record>): seq<Entry> {
    if records == [] then []
    else
      var r := records[|records| - 1];
      EntriesOf(records[..|records| - 1]) + [Entry(r.time, r.kind, r.payload)]
  }

  predicate Survives(e: Entry, rules: Rules) {
    rules.reread(e.time) == e.time && rules.reread(e.kind) == e.kind
  }

  method AppendEntry(ledger: OpenLedger, e: Entry)
    requires ledger.Valid() && Survives(e, ledger.rules)
    modifies ledger, ledger.file
    ensures ledger.Valid() && EntriesOf(ledger.file.records) == EntriesOf(old(ledger.file.records)) + [e]
  {
    var r := ledger.Append(e.time, e.kind, e.payload);
    assert r.(kind := ledger.rules.reread(r.kind)) == r;
    assert ledger.file.records[..|old(ledger.file.records)|] == old(ledger.file.records);
  }

  /** Any sequence of successful appends, reopening the file where `reopens` says, never fails to open it,
      records exactly the entries in order, and leaves a file that verifies. */
  method AppendAll(file: File, rules: Rules, entries: seq<Entry>, reopens: seq<bool>) returns (ok: bool)
    requires IsChain(file.records, rules.digest) && |reopens| == |entries|
    requires forall e :: e in entries ==> Survives(e, rules)
    modifies file
    ensures ok && IsChain(file.records, rules.digest)
    ensures EntriesOf(file.records) == EntriesOf(old(file.records)) + entries
  {
    var first := Open(file, rules);
    if first.None? { return false; }
    var ledger := first.value;
    for i := 0 to |entries|
      invariant fresh(ledger) && ledger.Valid() && ledger.file == file && ledger.rules == rules
      invariant EntriesOf(file.records) == EntriesOf(old(file.records)) + entries[..i]
    {
      if reopens[i] {
        var again := Open(file, rules);
        if again.None? { return false; }
        ledger := again.value;
      }
      Taken(entries, i);
      AppendEntry(ledger, entries[i]);
    }
    assert entries[..|entries|] == entries;
    ok := true;
  }

  lemma Taken<T>(s: seq<T>, i: nat)
    requires i < |s|
    ensures s[i] in s && s[..i + 1] == s[..i] + [s[i]]
    ensures forall prefix: seq<T> :: prefix + s[..i] + [s[i]] == prefix + s[..i + 1]
  {
    assert s[..i + 1] == s[..i] + [s[i]];
    forall prefix: seq<T> ensures prefix + s[..i] + [s[i]] == prefix + s[..i + 1] {
      assert prefix + (s[..i] + [s[i]]) == prefix + s[..i] + [s[i]];
    }
  }
}
