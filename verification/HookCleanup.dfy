/** Installing hooks into agent settings and taking them out again, around the user's own hooks. */
module HookCleanup {
  import opened JsonGrammar
  import opened Quoting

  /** `rest` is what else a handler or group holds; a handler without a command has an empty one. */
  datatype Handler = Handler(command: string, rest: string)

  datatype Entry = Group(handlers: seq<Handler>, rest: string) | Foreign(text: string)

  datatype Value = List(entries: seq<Entry>) | Other(text: string)

  /** The three events Keydris hooks into, and any other. */
  datatype Event = SessionStart | SessionEnd | PreToolUse | OtherEvent(name: string)

  type Hooks = map<Event, Value>

  // ----- one list of entries -----

  predicate IsOurs(h: Handler) {
    IsKeydrisCommand(h.command)
  }

  predicate HasOurs(handlers: seq<Handler>) {
    handlers != [] && (IsOurs(handlers[|handlers| - 1]) || HasOurs(handlers[..|handlers| - 1]))
  }

  function Kept(handlers: seq<Handler>): seq<Handler> {
    if handlers == [] then []
    else
      var last := handlers[|handlers| - 1];
      Kept(handlers[..|handlers| - 1]) + if IsOurs(last) then [] else [last]
  }

  predicate Mentions(e: Entry) {
    e.Group? && HasOurs(e.handlers)
  }

  /** An entry without our handlers; one that held nothing else goes. */
  function Stripped(e: Entry): seq<Entry> {
    if !Mentions(e) then [e]
    else if Kept(e.handlers) == [] then []
    else [e.(handlers := Kept(e.handlers))]
  }

  function Strip(entries: seq<Entry>): seq<Entry> {
    if entries == [] then [] else Strip(entries[..|entries| - 1]) + Stripped(entries[|entries| - 1])
  }

  predicate IsClean(entries: seq<Entry>) {
    forall e :: e in entries ==> !Mentions(e)
  }

  lemma {:induction false} KeptAll(handlers: seq<Handler>)
    requires !HasOurs(handlers)
    ensures Kept(handlers) == handlers
  {
    if handlers != [] { KeptAll(handlers[..|handlers| - 1]); }
  }

  lemma {:induction false} KeptIsOthers(handlers: seq<Handler>)
    ensures !HasOurs(Kept(handlers))
  {
    if handlers != [] {
      var most, last := handlers[..|handlers| - 1], handlers[|handlers| - 1];
      KeptIsOthers(most);
      assert (Kept(most) + [last])[..|Kept(most)|] == Kept(most);
      if IsOurs(last) { assert Kept(handlers) == Kept(most); }
    }
  }

  /** Nothing of ours remains, and entries of others are untouched. */
  lemma {:induction false} StripCleans(entries: seq<Entry>)
    ensures IsClean(Strip(entries))
    ensures IsClean(entries) ==> Strip(entries) == entries
  {
    if entries != [] {
      var last := entries[|entries| - 1];
      StripCleans(entries[..|entries| - 1]);
      assert entries == entries[..|entries| - 1] + [last];
      if last.Group? { KeptIsOthers(last.handlers); }
    }
  }

  // ----- what stripping keeps -----

  /** What stays of a handler does not depend on where it stands, or next to which. */
  lemma {:induction false} KeptConcat(a: seq<Handler>, b: seq<Handler>)
    ensures Kept(a + b) == Kept(a) + Kept(b)
  {
    if b == [] {
      assert a + b == a;
    } else {
      KeptConcat(a, b[..|b| - 1]);
      assert (a + b)[..|a + b| - 1] == a + b[..|b| - 1];
    }
  }

  /** It stays exactly when it does not run keydris. */
  lemma KeptOne(h: Handler)
    ensures Kept([h]) == if IsKeydrisCommand(h.command) then [] else [h]
  {
    assert [h][..0] == [];
  }

  lemma {:induction false} KeptIsShorter(handlers: seq<Handler>)
    ensures |Kept(handlers)| <= |handlers| && (HasOurs(handlers) <==> |Kept(handlers)| < |handlers|)
  {
    if handlers != [] { KeptIsShorter(handlers[..|handlers| - 1]); }
  }

  /** An entry stays as it is, or goes, or keeps what else it holds and the handlers of others. */
  lemma StrippedIs(e: Entry)
    ensures Stripped(e) == if e.Foreign? || Kept(e.handlers) == e.handlers then [e]
                           else if Kept(e.handlers) == [] then [] else [Entry.Group(Kept(e.handlers), e.rest)]
  {
    if e.Group? {
      KeptIsShorter(e.handlers);
      if !HasOurs(e.handlers) { KeptAll(e.handlers); }
    }
  }

  function HandlersOf(e: Entry): seq<Handler> {
    if e.Group? then e.handlers else []
  }

  /** All handlers, group by group. */
  function Handlers(entries: seq<Entry>): seq<Handler> {
    if entries == [] then [] else Handlers(entries[..|entries| - 1]) + HandlersOf(entries[|entries| - 1])
  }

  lemma HandlersMore(entries: seq<Entry>, e: Entry)
    ensures Handlers(entries + [e]) == Handlers(entries) + HandlersOf(e)
  {
    assert (entries + [e])[..|entries|] == entries;
  }

  lemma StrippedHandlers(entries: seq<Entry>, e: Entry)
    ensures Handlers(entries + Stripped(e)) == Handlers(entries) + if e.Group? then Kept(e.handlers) else []
  {
    if !Mentions(e) {
      HandlersMore(entries, e);
      if e.Group? { KeptAll(e.handlers); }
    } else if Kept(e.handlers) == [] {
      assert entries + [] == entries;
    } else {
      HandlersMore(entries, e.(handlers := Kept(e.handlers)));
    }
  }

  /** The handlers of others all survive, also those that share a group with one of ours, and in order; no other does. */
  lemma {:induction false} StripKeepsUsers(entries: seq<Entry>)
    ensures Handlers(Strip(entries)) == Kept(Handlers(entries))
  {
    if entries != [] {
      var most, last := entries[..|entries| - 1], entries[|entries| - 1];
      StripKeepsUsers(most);
      StrippedHandlers(Strip(most), last);
      KeptConcat(Handlers(most), HandlersOf(last));
    }
  }

  lemma Taken(entries: seq<Entry>, i: nat)
    requires i < |entries|
    ensures Strip(entries[..i + 1]) == Strip(entries[..i]) + Stripped(entries[i])
    ensures IsClean(entries[..i + 1]) == (IsClean(entries[..i]) && !Mentions(entries[i]))
  {
    assert entries[..i + 1][..i] == entries[..i];
    assert entries[..i + 1] == entries[..i] + [entries[i]];
  }

  method StripAll(entries: seq<Entry>) returns (kept: seq<Entry>, changed: bool)
    ensures kept == Strip(entries) && (changed <==> !IsClean(entries))
  {
    kept, changed := [], false;
    for i := 0 to |entries|
      invariant kept == Strip(entries[..i]) && (changed <==> !IsClean(entries[..i]))
    {
      var e := entries[i];
      Taken(entries, i);
      if Mentions(e) {
        changed := true;
        if Kept(e.handlers) != [] { kept := kept + [e.(handlers := Kept(e.handlers))]; }
      } else {
        kept := kept + [e];
      }
    }
    assert entries[..|entries|] == entries;
  }

  // ----- the settings -----

  function Listed(hooks: Option<Hooks>, event: Event): seq<Entry> {
    if hooks.Some? && event in hooks.value && hooks.value[event].List? then hooks.value[event].entries else []
  }

  predicate IsEvent(event: Event) {
    !event.OtherEvent?
  }

  predicate IsCleanHooks(hooks: Option<Hooks>) {
    IsClean(Listed(hooks, SessionStart)) && IsClean(Listed(hooks, SessionEnd)) && IsClean(Listed(hooks, PreToolUse))
  }

  ghost predicate StripsOnly(before: Option<Hooks>, after: Option<Hooks>, event: Event) {
    && Listed(after, event) == Strip(Listed(before, event))
    && forall other :: other != event ==> Listed(after, other) == Listed(before, other)
  }

  lemma ThreeStripped(h: Option<Hooks>, one: Option<Hooks>, two: Option<Hooks>, three: Option<Hooks>)
    requires StripsOnly(h, one, SessionStart) && StripsOnly(one, two, SessionEnd) && StripsOnly(two, three, PreToolUse)
    ensures forall event :: Listed(three, event) == Unmerged(Listed(h, event), event)
  {
    forall event ensures Listed(three, event) == Unmerged(Listed(h, event), event) {
      match event
      case SessionStart =>
      case SessionEnd =>
      case PreToolUse =>
      case OtherEvent(_) =>
    }
  }

  class Settings {
    var hooks: Option<Hooks>

    constructor (hooks: Option<Hooks>)
      ensures this.hooks == hooks
    {
      this.hooks := hooks;
    }

    /** Our entry comes last, once; an event that was no list becomes one. */
    method MergeEvent(event: Event, entry: Entry)
      modifies this
      ensures Listed(hooks, event) == Strip(old(Listed(hooks, event))) + [entry]
      ensures hooks.Some? && event in hooks.value && hooks.value[event].List?
      ensures forall other :: other != event ==> Listed(hooks, other) == old(Listed(hooks, other))
    {
      var all: Hooks := if hooks.Some? then hooks.value else map[];
      var kept, changed := StripAll(Listed(hooks, event));
      hooks := Some(all[event := List(kept + [entry])]);
    }

    method UnmergeEvent(event: Event, changedBefore: bool) returns (changed: bool)
      requires hooks.Some?
      modifies this
      ensures hooks.Some? && StripsOnly(old(hooks), hooks, event)
      ensures changed <==> changedBefore || !IsClean(old(Listed(hooks, event)))
    {
      changed := changedBefore;
      if event !in hooks.value || hooks.value[event].Other? { return; }
      ghost var entries := Listed(hooks, event);
      var kept, removed := StripAll(hooks.value[event].entries);
      assert kept == Strip(entries);
      changed := changed || removed;
      if kept == [] {
        if changed { hooks := Some(hooks.value - {event}); }
      } else {
        hooks := Some(hooks.value[event := List(kept)]);
      }
    }

    /** Takes our handlers out of the three events; other events stay as they were. */
    method Unmerge() returns (changed: bool)
      modifies this
      ensures forall event :: Listed(hooks, event) == Unmerged(old(Listed(hooks, event)), event)
      ensures changed <==> !IsCleanHooks(old(hooks))
    {
      if hooks.None? { return false; }
      var first := UnmergeEvent(SessionStart, false);
      ghost var one := hooks;
      var second := UnmergeEvent(SessionEnd, first);
      ghost var two := hooks;
      changed := UnmergeEvent(PreToolUse, second);
      ThreeStripped(old(hooks), one, two, hooks);
      if hooks.value == map[] { hooks := None; }
    }

    /** Our entry, with a command for the executable at `path`, in each of the three events. */
    method Install(path: string, a: Arguments)
      modifies this
      ensures forall event :: Listed(hooks, event) == Installed(old(Listed(hooks, event)), event, path, a)
    {
      MergeEvent(SessionStart, Ours(path, a.start));
      MergeEvent(SessionEnd, Ours(path, a.end));
      MergeEvent(PreToolUse, Ours(path, a.tool));
    }

    /** Installing and cleaning up leaves each event the entries it had, less any older ones of ours;
        the new entries stay exactly when the path is not called keydris. */
    method InstallThenClean(path: string, a: Arguments)
      requires IsSuffix(a.start) && IsSuffix(a.end) && IsSuffix(a.tool)
      modifies this
      ensures forall event :: Listed(hooks, event) == Cleaned(old(Listed(hooks, event)), event, path, a)
    {
      ghost var was := hooks;
      Install(path, a);
      ghost var installed := hooks;
      var _ := Unmerge();
      CleanedEverywhere(was, installed, hooks, path, a);
    }
  }

  datatype Arguments = Arguments(start: string, end: string, tool: string)

  function For(a: Arguments, event: Event): string {
    match event
    case SessionStart => a.start
    case SessionEnd => a.end
    case _ => a.tool
  }

  function Ours(path: string, arguments: string): Entry {
    Entry.Group([Handler(ShellQuote(path) + arguments, "")], "")
  }

  function Installed(entries: seq<Entry>, event: Event, path: string, a: Arguments): seq<Entry> {
    if event.OtherEvent? then entries else Strip(entries) + [Ours(path, For(a, event))]
  }

  function Unmerged(entries: seq<Entry>, event: Event): seq<Entry> {
    if IsEvent(event) then Strip(entries) else entries
  }

  lemma CleanedEverywhere(was: Option<Hooks>, installed: Option<Hooks>, cleaned: Option<Hooks>, path: string, a: Arguments)
    requires IsSuffix(a.start) && IsSuffix(a.end) && IsSuffix(a.tool)
    requires forall event :: Listed(installed, event) == Installed(Listed(was, event), event, path, a)
    requires forall event :: Listed(cleaned, event) == Unmerged(Listed(installed, event), event)
    ensures forall event :: Listed(cleaned, event) == Cleaned(Listed(was, event), event, path, a)
  {
    forall event ensures Listed(cleaned, event) == Cleaned(Listed(was, event), event, path, a) {
      InstalledIsCleaned(Listed(was, event), event, path, a);
    }
  }

  lemma InstalledIsCleaned(entries: seq<Entry>, event: Event, path: string, a: Arguments)
    requires IsSuffix(For(a, event))
    ensures Unmerged(Installed(entries, event, path, a), event) == Cleaned(entries, event, path, a)
  {
    OursIsStripped(entries, path, For(a, event));
  }

  function Cleaned(entries: seq<Entry>, event: Event, path: string, a: Arguments): seq<Entry> {
    if event.OtherEvent? then entries
    else if IsKeydrisPath(path) then Strip(entries)
    else Strip(entries) + [Ours(path, For(a, event))]
  }

  /** With no older hooks of ours, the round trip gives every event back as it was. */
  lemma RoundTrip(entries: seq<Entry>, event: Event, path: string, a: Arguments)
    requires IsClean(entries) && IsKeydrisPath(path)
    ensures Cleaned(entries, event, path, a) == entries
  {
    StripCleans(entries);
  }

  lemma StripPushed(entries: seq<Entry>, e: Entry)
    ensures Strip(entries + [e]) == Strip(entries) + Stripped(e)
  {
    assert (entries + [e])[..|entries|] == entries;
  }

  lemma OursIsOurs(path: string, arguments: string)
    requires IsSuffix(arguments)
    ensures Stripped(Ours(path, arguments)) == if IsKeydrisPath(path) then [] else [Ours(path, arguments)]
  {
    var ours := Ours(path, arguments);
    var handler := ours.handlers[0];
    HookIsRecognised(path, arguments);
    assert [handler][..0] == [] && HasOurs([handler]) == (IsOurs(handler) || HasOurs([handler][..0]));
    assert Mentions(ours) <==> IsOurs(handler);
    if IsOurs(handler) { assert Kept([handler]) == []; }
  }

  lemma OursIsStripped(entries: seq<Entry>, path: string, arguments: string)
    requires IsSuffix(arguments)
    ensures Strip(Strip(entries) + [Ours(path, arguments)])
            == if IsKeydrisPath(path) then Strip(entries) else Strip(entries) + [Ours(path, arguments)]
  {
    StripPushed(Strip(entries), Ours(path, arguments));
    OursIsOurs(path, arguments);
    StripCleans(entries);
    StripCleans(Strip(entries));
  }
}
