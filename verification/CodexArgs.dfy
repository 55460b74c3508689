/** Where configuration values go on a codex command line: the launcher's rule and the desktop shim's two
    shell loops, against a parse of the command line. */
module CodexArgs {
  import opened JsonGrammar

  /** The parts of a command line: a config option with its value, in two arguments or one, an option that
      lacks its value, any other argument, and everything from "--" on. */
  datatype Piece =
    | Plain(arg: string)
    | Joined(arg: string)
    | Pair(flag: string, value: string)
    | Dangling(flag: string)
    | Verbatim(args: seq<string>)

  datatype Kind = Ends | Flag | Carries | Other

  predicate StartsWith(s: string, prefix: string) {
    prefix <= s
  }

  /** The cases of the launcher's switch, in order. */
  function KindOf(arg: string): Kind {
    if arg == "--" then Ends
    else if arg == "-c" || arg == "--config" then Flag
    else if StartsWith(arg, "-c") || StartsWith(arg, "--config=") then Carries
    else Other
  }

  /** The shim's patterns: `--`, `-c | --config`, `-c?* | --config=*`. */
  function ShellKindOf(arg: string): Kind {
    if arg == "--" then Ends
    else if arg == "-c" || arg == "--config" then Flag
    else if (StartsWith(arg, "-c") && |arg| > 2) || StartsWith(arg, "--config=") then Carries
    else Other
  }

  lemma KindsAgree(arg: string)
    ensures ShellKindOf(arg) == KindOf(arg)
  {
    if StartsWith(arg, "-c") && |arg| <= 2 { assert arg == "-c"; }
  }

  function FirstPiece(args: seq<string>): (p: Piece)
    requires args != []
    ensures 0 < |PieceText(p)| <= |args| && args[..|PieceText(p)|] == PieceText(p)
  {
    match KindOf(args[0])
    case Ends => Verbatim(args)
    case Flag => if |args| == 1 then Dangling(args[0]) else Pair(args[0], args[1])
    case Carries => Joined(args[0])
    case Other => Plain(args[0])
  }

  function PieceText(p: Piece): seq<string> {
    match p
    case Plain(arg) => [arg]
    case Joined(arg) => [arg]
    case Pair(flag, value) => [flag, value]
    case Dangling(flag) => [flag]
    case Verbatim(args) => args
  }

  function Parse(args: seq<string>): seq<Piece>
    decreases |args|
  {
    if args == [] then [] else var p := FirstPiece(args); [p] + Parse(args[|PieceText(p)|..])
  }

  function Text(pieces: seq<Piece>): seq<string> {
    if pieces == [] then [] else PieceText(pieces[0]) + Text(pieces[1..])
  }

  predicate IsConfig(p: Piece) {
    p.Joined? || p.Pair?
  }

  /** How many pieces there are up to the last config option. */
  function Cut(pieces: seq<Piece>): (k: nat)
    ensures k <= |pieces|
    ensures k > 0 ==> IsConfig(pieces[k - 1])
    ensures forall j :: k <= j < |pieces| ==> !IsConfig(pieces[j])
  {
    if pieces == [] then 0 else if IsConfig(pieces[|pieces| - 1]) then |pieces| else Cut(pieces[..|pieces| - 1])
  }

  function Pairs(values: seq<string>): seq<Piece> {
    seq(|values|, i requires 0 <= i < |values| => Pair("-c", values[i]))
  }

  function Flags(values: seq<string>): seq<string> {
    Text(Pairs(values))
  }

  /** The values follow the caller's last config option before "--", or come first when there is none. */
  function Placed(args: seq<string>, values: seq<string>): seq<string> {
    var pieces := Parse(args);
    var k := Cut(pieces);
    Text(pieces[..k]) + Flags(values) + Text(pieces[k..])
  }

  // ----- the parse and its text -----

  lemma Assoc<T>(a: seq<T>, b: seq<T>, c: seq<T>)
    ensures a + b + c == a + (b + c)
  {
  }

  lemma Pushed<T>(a: seq<T>, x: T)
    ensures (a + [x])[..|a|] == a && (a + [x])[..|a| + 1] == a + [x]
    ensures forall k :: 0 <= k <= |a| ==> (a + [x])[..k] == a[..k]
  {
  }

  lemma HeadAndTail<T>(a: seq<T>)
    requires a != []
    ensures a == [a[0]] + a[1..]
  {
  }

  lemma Dropped<T>(a: seq<T>, b: seq<T>)
    ensures (a + b)[|a|..] == b
  {
  }

  lemma Inserted<T>(a: seq<T>, x: seq<T>, b: seq<T>)
    ensures (a + x + b)[|a|..|a| + |x|] == x
    ensures (a + x + b)[..|a|] + (a + x + b)[|a| + |x|..] == a + b
  {
  }

  lemma Halves<T>(a: seq<T>, b: seq<T>)
    ensures (a + b)[..|a|] == a && (a + b)[|a|..] == b
  {
  }

  lemma Advanced<T>(a: seq<T>, i: nat, n: nat)
    requires i + n <= |a|
    ensures a[i..][n..] == a[i + n..] && a[..i + n] == a[..i] + a[i..][..n]
  {
  }

  lemma {:induction false} TextOfParse(args: seq<string>)
    ensures Text(Parse(args)) == args
    decreases |args|
  {
    if args != [] {
      var rest := args[|PieceText(FirstPiece(args))|..];
      TextOfParse(rest);
      assert Parse(args)[1..] == Parse(rest);
    }
  }

  lemma {:induction false} TextConcat(p: seq<Piece>, q: seq<Piece>)
    ensures Text(p + q) == Text(p) + Text(q)
  {
    if p == [] {
      assert p + q == q;
    } else {
      TextConcat(p[1..], q);
      assert (p + q)[0] == p[0] && (p + q)[1..] == p[1..] + q;
      Assoc(PieceText(p[0]), Text(p[1..]), Text(q));
    }
  }

  /** A piece that is read the same whatever follows it. */
  predicate IsClosed(p: Piece) {
    match p
    case Plain(arg) => KindOf(arg) == Other
    case Joined(arg) => KindOf(arg) == Carries
    case Pair(flag, _) => KindOf(flag) == Flag
    case Dangling(_) => false
    case Verbatim(_) => false
  }

  lemma ClosedIsFirst(p: Piece, rest: seq<string>)
    requires IsClosed(p)
    ensures PieceText(p) + rest != [] && FirstPiece(PieceText(p) + rest) == p
  {
  }

  lemma ParseClosed(p: Piece, more: seq<string>)
    requires IsClosed(p)
    ensures Parse(PieceText(p) + more) == [p] + Parse(more)
  {
    ClosedIsFirst(p, more);
    Dropped(PieceText(p), more);
  }

  lemma {:induction false} ParseConcat(p: seq<Piece>, rest: seq<string>)
    requires forall i :: 0 <= i < |p| ==> IsClosed(p[i])
    ensures Parse(Text(p) + rest) == p + Parse(rest)
  {
    if p == [] {
      assert Text(p) + rest == rest;
    } else {
      ParseConcat(p[1..], rest);
      Assoc(PieceText(p[0]), Text(p[1..]), rest);
      ParseClosed(p[0], Text(p[1..]) + rest);
      Assoc([p[0]], p[1..], Parse(rest));
      HeadAndTail(p);
    }
  }

  lemma ConfigIsClosed(args: seq<string>)
    requires args != []
    ensures IsConfig(FirstPiece(args)) ==> IsClosed(FirstPiece(args))
    ensures |PieceText(FirstPiece(args))| < |args| ==> IsClosed(FirstPiece(args))
  {
  }

  /** Only the last piece of a parse can depend on what follows, and it is no config option. */
  lemma {:induction false} ParseIsClosed(args: seq<string>)
    ensures forall i :: 0 <= i < |Parse(args)| ==> IsClosed(Parse(args)[i]) || (i == |Parse(args)| - 1 && !IsConfig(Parse(args)[i]))
    decreases |args|
  {
    if args != [] {
      ConfigIsClosed(args);
      ParseIsClosed(args[|PieceText(FirstPiece(args))|..]);
    }
  }

  lemma DroppedFrom<T>(x: T, a: seq<T>, k: nat)
    requires 0 < k <= |a| + 1
    ensures ([x] + a)[k..] == a[k - 1..]
  {
  }

  lemma {:induction false} ParseTail(args: seq<string>, k: nat)
    requires k <= |Parse(args)|
    ensures Parse(Text(Parse(args)[k..])) == Parse(args)[k..]
    decreases |args|
  {
    if k == 0 {
      TextOfParse(args);
      assert Parse(args)[0..] == Parse(args);
    } else {
      var p := FirstPiece(args);
      var rest := args[|PieceText(p)|..];
      ParseTail(rest, k - 1);
      DroppedFrom(p, Parse(rest), k);
    }
  }

  // ----- what the placement means -----

  /** Codex reads the new command line as the caller's pieces, each whole and in order, with the inserted options
      between them; none of the caller's config options before "--" comes after the inserted ones. */
  lemma PlacedParses(args: seq<string>, values: seq<string>)
    ensures var pieces := Parse(args);
            var k := Cut(pieces);
            && Parse(Placed(args, values)) == pieces[..k] + Pairs(values) + pieces[k..]
            && forall j :: k <= j < |pieces| ==> !IsConfig(pieces[j])
  {
    var pieces := Parse(args);
    var k := Cut(pieces);
    ParseIsClosed(args);
    ParseTail(args, k);
    InsertedIsClosed(pieces, k, values);
    TextConcat(pieces[..k], Pairs(values));
    ParseConcat(pieces[..k] + Pairs(values), Text(pieces[k..]));
  }

  lemma InsertedIsClosed(pieces: seq<Piece>, k: nat, values: seq<string>)
    requires k == Cut(pieces)
    requires forall i :: 0 <= i < |pieces| ==> IsClosed(pieces[i]) || (i == |pieces| - 1 && !IsConfig(pieces[i]))
    ensures forall i :: 0 <= i < k + |values| ==> IsClosed((pieces[..k] + Pairs(values))[i])
  {
  }

  lemma Rejoined<T>(a: seq<T>, k: nat)
    requires k <= |a|
    ensures a[..k] + a[k..] == a
  {
  }

  lemma TextHalves(args: seq<string>, k: nat)
    requires k <= |Parse(args)|
    ensures Text(Parse(args)[..k]) + Text(Parse(args)[k..]) == args
  {
    Rejoined(Parse(args), k);
    TextConcat(Parse(args)[..k], Parse(args)[k..]);
    TextOfParse(args);
  }

  /** Without the inserted arguments the command line is the caller's. */
  lemma ErasingRestores(args: seq<string>, values: seq<string>)
    ensures var m := |Text(Parse(args)[..Cut(Parse(args))])|;
            var placed := Placed(args, values);
            var n := m + |Flags(values)|;
            n <= |placed| && placed[m..n] == Flags(values) && placed[..m] + placed[n..] == args
  {
    var k := Cut(Parse(args));
    TextHalves(args, k);
    Inserted(Text(Parse(args)[..k]), Flags(values), Text(Parse(args)[k..]));
  }

  // ----- the scan for the place -----

  /** What a scan that has read `args[..i]` knows: the pieces read, and where the last config option ends. */
  ghost predicate IsScanned(args: seq<string>, read: seq<Piece>, i: nat, last: nat) {
    && i <= |args|
    && Parse(args) == read + Parse(args[i..])
    && Text(read) == args[..i]
    && last == |Text(read[..Cut(read)])|
  }

  lemma CutMore(read: seq<Piece>, p: Piece)
    ensures Cut(read + [p]) == if IsConfig(p) then |read| + 1 else Cut(read)
    ensures (read + [p])[..Cut(read + [p])] == if IsConfig(p) then read + [p] else read[..Cut(read)]
  {
    Pushed(read, p);
  }

  lemma TextMore(read: seq<Piece>, p: Piece)
    ensures Text(read + [p]) == Text(read) + PieceText(p)
  {
    TextConcat(read, [p]);
    assert Text([p]) == PieceText(p) by { assert [p][1..] == []; }
  }

  lemma ParseMore(args: seq<string>, read: seq<Piece>, i: nat, p: Piece, n: nat)
    requires i + n <= |args| && n > 0 && FirstPiece(args[i..]) == p && |PieceText(p)| == n
    requires Parse(args) == read + Parse(args[i..])
    ensures Parse(args) == read + [p] + Parse(args[i + n..])
  {
    Advanced(args, i, n);
    Assoc(read, [p], Parse(args[i + n..]));
  }

  lemma ScanPiece(args: seq<string>, read: seq<Piece>, i: nat, last: nat, p: Piece, n: nat)
    requires IsScanned(args, read, i, last) && i + n <= |args| && n > 0
    requires FirstPiece(args[i..]) == p && |PieceText(p)| == n
    ensures IsScanned(args, read + [p], i + n, if IsConfig(p) then i + n else last)
  {
    ParseMore(args, read, i, p, n);
    Advanced(args, i, n);
    TextMore(read, p);
    CutMore(read, p);
  }

  ghost predicate Scanned(args: seq<string>, i: nat, last: nat) {
    exists read :: IsScanned(args, read, i, last)
  }

  lemma ScanStarts(args: seq<string>)
    ensures Scanned(args, 0, 0)
  {
    assert args[0..] == args;
    assert IsScanned(args, [], 0, 0);
  }

  lemma FirstAt(args: seq<string>, i: nat)
    requires i < |args|
    ensures KindOf(args[i]) == Flag && i + 1 < |args| ==> FirstPiece(args[i..]) == Pair(args[i], args[i + 1])
    ensures KindOf(args[i]) == Carries ==> FirstPiece(args[i..]) == Joined(args[i])
    ensures KindOf(args[i]) == Other ==> FirstPiece(args[i..]) == Plain(args[i])
  {
    assert args[i..][0] == args[i];
  }

  lemma PieceLength(arg: string, value: string)
    ensures |PieceText(Pair(arg, value))| == 2 && |PieceText(Joined(arg))| == 1 && |PieceText(Plain(arg))| == 1
    ensures IsConfig(Pair(arg, value)) && IsConfig(Joined(arg)) && !IsConfig(Plain(arg))
  {
  }

  lemma ScanAs(args: seq<string>, i: nat, last: nat, p: Piece, n: nat)
    requires Scanned(args, i, last) && i + n <= |args| && n > 0
    requires FirstPiece(args[i..]) == p && |PieceText(p)| == n
    ensures Scanned(args, i + n, if IsConfig(p) then i + n else last)
  {
    var read :| IsScanned(args, read, i, last);
    ScanPiece(args, read, i, last, p, n);
  }

  lemma ScanPair(args: seq<string>, i: nat, last: nat)
    requires Scanned(args, i, last) && i + 1 < |args| && KindOf(args[i]) == Flag
    ensures Scanned(args, i + 2, i + 2)
  {
    FirstAt(args, i);
    PieceLength(args[i], args[i + 1]);
    ScanAs(args, i, last, Pair(args[i], args[i + 1]), 2);
  }

  lemma ScanJoined(args: seq<string>, i: nat, last: nat)
    requires Scanned(args, i, last) && i < |args| && KindOf(args[i]) == Carries
    ensures Scanned(args, i + 1, i + 1)
  {
    FirstAt(args, i);
    PieceLength(args[i], "");
    ScanAs(args, i, last, Joined(args[i]), 1);
  }

  lemma ScanPlain(args: seq<string>, i: nat, last: nat)
    requires Scanned(args, i, last) && i < |args| && KindOf(args[i]) == Other
    ensures Scanned(args, i + 1, last)
  {
    FirstAt(args, i);
    PieceLength(args[i], "");
    ScanAs(args, i, last, Plain(args[i]), 1);
  }

  /** A scan that stops where no config option follows has found the place. */
  lemma ScanEnds(args: seq<string>, i: nat, last: nat, values: seq<string>)
    requires Scanned(args, i, last) && i <= |args|
    requires i < |args| ==> KindOf(args[i]) == Ends || (KindOf(args[i]) == Flag && i + 1 == |args|)
    ensures last <= |args| && Placed(args, values) == args[..last] + Flags(values) + args[last..]
  {
    var read :| IsScanned(args, read, i, last);
    NoMoreConfig(args[i..]);
    CutOfPrefix(read, Parse(args[i..]));
    var k := Cut(Parse(args));
    Shorter(read, Parse(args[i..]), k);
    TextHalves(args, k);
    Halves(Text(Parse(args)[..k]), Text(Parse(args)[k..]));
  }

  lemma Shorter<T>(a: seq<T>, b: seq<T>, k: nat)
    requires k <= |a|
    ensures (a + b)[..k] == a[..k]
  {
  }

  lemma Unpushed<T>(a: seq<T>, b: seq<T>)
    requires b != []
    ensures a + b[..|b| - 1] + [b[|b| - 1]] == a + b
  {
    assert b == b[..|b| - 1] + [b[|b| - 1]];
    Assoc(a, b[..|b| - 1], [b[|b| - 1]]);
  }

  lemma {:induction false} CutOfPrefix(read: seq<Piece>, rest: seq<Piece>)
    requires forall j :: 0 <= j < |rest| ==> !IsConfig(rest[j])
    ensures Cut(read + rest) == Cut(read)
  {
    if rest == [] {
      assert read + rest == read;
    } else {
      CutOfPrefix(read, rest[..|rest| - 1]);
      CutMore(read + rest[..|rest| - 1], rest[|rest| - 1]);
      Unpushed(read, rest);
    }
  }

  /** Where "--" or an option without its value begins, nothing more is a config option. */
  lemma NoMoreConfig(args: seq<string>)
    requires args != [] ==> KindOf(args[0]) == Ends || (KindOf(args[0]) == Flag && |args| == 1)
    ensures forall j :: 0 <= j < |Parse(args)| ==> !IsConfig(Parse(args)[j])
  {
    if args != [] { assert args[|args|..] == []; }
  }

  /** The launcher: one loop with an index that skips over values. */
  method WithCodexConfig(args: seq<string>, values: seq<string>) returns (out: seq<string>)
    ensures out == Placed(args, values)
  {
    var last := -1;
    var i := 0;
    ScanStarts(args);
    while i < |args| && KindOf(args[i]) != Ends
      invariant 0 <= i <= |args| && -1 <= last < |args|
      invariant Scanned(args, i, last + 1)
      decreases |args| - i
    {
      if KindOf(args[i]) == Flag && i + 1 == |args| { break; }
      match KindOf(args[i])
      case Flag =>
        ScanPair(args, i, last + 1);
        i := i + 1;
        last := i;
        i := i + 1;
      case Carries =>
        ScanJoined(args, i, last + 1);
        last := i;
        i := i + 1;
      case Other =>
        ScanPlain(args, i, last + 1);
        i := i + 1;
    }
    ScanEnds(args, i, last + 1, values);
    var flags := BuildFlags(values);
    out := args[..last + 1] + flags + args[last + 1..];
  }

  method BuildFlags(values: seq<string>) returns (flags: seq<string>)
    ensures flags == Flags(values)
  {
    flags := [];
    for k := 0 to |values|
      invariant flags == Flags(values[..k])
    {
      flags := flags + ["-c", values[k]];
      TextConcat(Pairs(values[..k]), [Pair("-c", values[k])]);
      assert Pairs(values[..k + 1]) == Pairs(values[..k]) + [Pair("-c", values[k])];
      assert Text([Pair("-c", values[k])]) == ["-c", values[k]] by { assert [Pair("-c", values[k])][1..] == []; }
    }
    assert values[..|values|] == values;
  }

  /** The shim: a loop over the parameters that remembers whether a value is due, then one that rotates them. */
  method RunShim(params: seq<string>, flags: seq<string>, ghost values: seq<string>) returns (out: seq<string>)
    requires flags == Flags(values)
    ensures out == Placed(params, values)
  {
    var last := FindLast(params, values);
    if last == 0 {
      return flags + params;
    }
    out := Rotate(params, flags, last);
  }

  method FindLast(params: seq<string>, ghost values: seq<string>) returns (last: nat)
    ensures last <= |params| && Placed(params, values) == params[..last] + Flags(values) + params[last..]
  {
    last := 0;
    var i, value := 0, false;
    ScanStarts(params);
    while i < |params|
      invariant 0 <= i <= |params|
      invariant value ==> i > 0 && KindOf(params[i - 1]) == Flag
      invariant Scanned(params, if value then i - 1 else i, last)
    {
      var arg := params[i];
      i := i + 1;
      if value {
        ScanPair(params, i - 2, last);
        last, value := i, false;
        continue;
      }
      KindsAgree(arg);
      if ShellKindOf(arg) == Ends {
        ScanEnds(params, i - 1, last, values);
        return;
      }
      if ShellKindOf(arg) == Flag {
        value := true;
      } else if ShellKindOf(arg) == Carries {
        ScanJoined(params, i - 1, last);
        last := i;
      } else {
        ScanPlain(params, i - 1, last);
      }
    }
    ScanEnds(params, if value then i - 1 else i, last, values);
  }

  method Rotate(params: seq<string>, flags: seq<string>, last: nat) returns (out: seq<string>)
    requires 0 < last <= |params|
    ensures out == params[..last] + flags + params[last..]
  {
    out := params;
    var i, n := 0, |params|;
    while i < n
      invariant 0 <= i <= n
      invariant out == params[i..] + if i < last then params[..i] else params[..last] + flags + params[last..i]
    {
      var arg := out[0];
      out := out[1..];
      out := out + [arg];
      i := i + 1;
      if i == last { out := out + flags; }
    }
  }

  /** Both ways of starting codex place the values alike. */
  method PlaceBothWays(args: seq<string>, values: seq<string>) returns (launched: seq<string>, shimmed: seq<string>)
    ensures launched == shimmed
  {
    launched := WithCodexConfig(args, values);
    var flags := BuildFlags(values);
    shimmed := RunShim(args, flags, values);
  }
}
