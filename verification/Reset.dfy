/** Deleting a reviewed directory tree, member by member, while other processes may change it. */
module Reset {
  import opened JsonGrammar

  type Path = seq<string>

  // ----- the plan -----

  datatype Tree = Tree(name: string, children: seq<Tree>)

  predicate HasNames(ts: seq<Tree>) {
    (forall i, j :: 0 <= i < j < |ts| ==> ts[i].name != ts[j].name) && forall i :: 0 <= i < |ts| ==> HasNames(ts[i].children)
  }

  /** The members of a tree at `path`, each directory before what is in it. */
  function Walk(path: Path, t: Tree): seq<Path>
    decreases t, 0
  {
    [path] + WalkAll(path, t.children)
  }

  function WalkAll(path: Path, ts: seq<Tree>): seq<Path>
    decreases ts, |ts|
  {
    if ts == [] then [] else WalkAll(path, ts[..|ts| - 1]) + Walk(path + [ts[|ts| - 1].name], ts[|ts| - 1])
  }

  /** No member comes after one that lies in it, or twice. */
  predicate IsOrdered(members: seq<Path>) {
    forall i, j :: 0 <= i < j < |members| ==> !(members[j] <= members[i])
  }

  predicate AreBelow(members: seq<Path>, path: Path) {
    forall i :: 0 <= i < |members| ==> path <= members[i]
  }

  lemma {:induction false} WalkIsOrdered(path: Path, t: Tree)
    requires HasNames(t.children)
    ensures AreBelow(Walk(path, t), path) && IsOrdered(Walk(path, t))
    decreases t, 0
  {
    WalkAllIsOrdered(path, t.children);
  }

  /** Everything below `path` has a further component, one of the names. */
  predicate AreInside(members: seq<Path>, path: Path, ts: seq<Tree>) {
    forall i :: 0 <= i < |members| ==>
      path < members[i] && exists k :: 0 <= k < |ts| && ts[k].name == members[i][|path|]
  }

  lemma {:induction false} WalkAllIsOrdered(path: Path, ts: seq<Tree>)
    requires HasNames(ts)
    ensures AreInside(WalkAll(path, ts), path, ts) && IsOrdered(WalkAll(path, ts))
    decreases ts, |ts|
  {
    if ts != [] {
      var n := |ts| - 1;
      var front, last := WalkAll(path, ts[..n]), Walk(path + [ts[n].name], ts[n]);
      WalkAllIsOrdered(path, ts[..n]);
      WalkIsOrdered(path + [ts[n].name], ts[n]);
      forall i | 0 <= i < |front| ensures exists k :: 0 <= k < |ts| && ts[k].name == front[i][|path|] {
        var k :| 0 <= k < n && ts[..n][k].name == front[i][|path|];
        assert ts[k].name == front[i][|path|];
      }
      forall i, j | 0 <= i < |front| && 0 <= j < |last| ensures !(last[j] <= front[i]) {
        var k :| 0 <= k < n && ts[..n][k].name == front[i][|path|];
        assert path + [ts[n].name] <= last[j];
        assert (path + [ts[n].name])[|path|] == last[j][|path|];
      }
      forall j | 0 <= j < |last| ensures path < last[j] && last[j][|path|] == ts[n].name {
        assert path + [ts[n].name] <= last[j];
        assert (path + [ts[n].name])[..|path|] == path && (path + [ts[n].name])[|path|] == ts[n].name;
      }
    }
  }

  /** The path `rest` leads from the top of `t` to one of its members. */
  predicate LeadsTo(t: Tree, rest: Path)
    decreases t
  {
    rest == [] || exists k :: 0 <= k < |t.children| && t.children[k].name == rest[0] && LeadsTo(t.children[k], rest[1..])
  }

  /** The members of a tree are what its paths lead to: all of it, and nothing else. */
  lemma {:induction false} WalkIsTree(path: Path, t: Tree, rest: Path)
    ensures path + rest in Walk(path, t) <==> LeadsTo(t, rest)
    decreases t, 0
  {
    WalkAllIsTrees(path, t.children, rest);
    if rest == [] {
      assert path + rest == path;
      assert Walk(path, t)[0] == path;
    } else {
      assert path + rest != path;
      assert path + rest in Walk(path, t) <==> path + rest in WalkAll(path, t.children);
    }
  }

  predicate LeadsIntoOne(ts: seq<Tree>, rest: Path)
    decreases ts
  {
    rest != [] && exists k :: 0 <= k < |ts| && ts[k].name == rest[0] && LeadsTo(ts[k], rest[1..])
  }

  lemma {:induction false} WalkAllIsTrees(path: Path, ts: seq<Tree>, rest: Path)
    ensures path + rest in WalkAll(path, ts) <==> LeadsIntoOne(ts, rest)
    decreases ts, |ts|
  {
    if ts != [] {
      var n := |ts| - 1;
      var t := ts[n];
      WalkAllIsTrees(path, ts[..n], rest);
      LeadsMore(ts, rest);
      if rest != [] && rest[0] == t.name {
        WalkIsTree(path + [t.name], t, rest[1..]);
        assert path + [t.name] + rest[1..] == path + rest;
      } else {
        NotBelow(path, t, rest);
      }
    }
  }

  lemma LeadsMore(ts: seq<Tree>, rest: Path)
    requires ts != []
    ensures var n := |ts| - 1;
            LeadsIntoOne(ts, rest) <==> LeadsIntoOne(ts[..n], rest) || (rest != [] && ts[n].name == rest[0] && LeadsTo(ts[n], rest[1..]))
  {
    var n := |ts| - 1;
    if LeadsIntoOne(ts[..n], rest) {
      var k :| 0 <= k < n && ts[..n][k].name == rest[0] && LeadsTo(ts[..n][k], rest[1..]);
      assert ts[k].name == rest[0] && LeadsTo(ts[k], rest[1..]);
    }
    if LeadsIntoOne(ts, rest) {
      var k :| 0 <= k < |ts| && ts[k].name == rest[0] && LeadsTo(ts[k], rest[1..]);
      if k < n { assert ts[..n][k].name == rest[0] && LeadsTo(ts[..n][k], rest[1..]); }
    }
  }

  lemma {:induction false} AllBelow(path: Path, t: Tree)
    ensures AreBelow(Walk(path, t), path)
    decreases t, 0
  {
    AllInside(path, t.children);
  }

  lemma {:induction false} AllInside(path: Path, ts: seq<Tree>)
    ensures AreBelow(WalkAll(path, ts), path)
    decreases ts, |ts|
  {
    if ts != [] {
      var n := |ts| - 1;
      AllInside(path, ts[..n]);
      AllBelow(path + [ts[n].name], ts[n]);
      var last := Walk(path + [ts[n].name], ts[n]);
      forall i | 0 <= i < |last| ensures path <= last[i] {
        assert path + [ts[n].name] <= last[i];
        assert (path + [ts[n].name])[..|path|] == path;
      }
    }
  }

  lemma NotBelow(path: Path, t: Tree, rest: Path)
    requires rest == [] || rest[0] != t.name
    ensures path + rest !in Walk(path + [t.name], t)
  {
    AllBelow(path + [t.name], t);
    if path + [t.name] <= path + rest { assert (path + [t.name])[|path|] == (path + rest)[|path|]; }
  }

  // ----- the directory -----

  datatype Outcome = Removed | Absent | NotEmpty

  /** What other processes do before a step. */
  datatype Change = Change(appear: set<Path>, vanish: set<Path>)

  function Changed(entries: set<Path>, c: Change): set<Path> {
    entries - c.vanish + c.appear
  }

  /** The entries after `n` changes by others, had nothing been deleted here. */
  function Undeleted(entries: set<Path>, changes: nat -> Change, n: nat): set<Path> {
    if n == 0 then entries else Changed(Undeleted(entries, changes, n - 1), changes(n - 1))
  }

  predicate HasBelow(entries: set<Path>, path: Path) {
    exists p :: p in entries && path < p
  }

  /** Every entry of the tree is planned. */
  predicate IsCovered(entries: set<Path>, root: Path, members: seq<Path>) {
    forall p :: p in entries && root <= p ==> p in members
  }

  ghost predicate IsUndisturbed(changes: nat -> Change) {
    forall n :: changes(n) == Change({}, {})
  }

  /** `p` is there before and after each of the first `looks` changes. */
  predicate IsThroughout(entries: set<Path>, changes: nat -> Change, looks: nat, p: Path) {
    forall n: nat :: n <= looks ==> p in Undeleted(entries, changes, n)
  }

  /** What a look at a tree may show while others change it: all that was there throughout, and nothing that never was. */
  ghost predicate IsLook(entries: set<Path>, changes: nat -> Change, looks: nat, root: Path, seen: set<Path>) {
    && (forall p :: root <= p && IsThroughout(entries, changes, looks, p) ==> p in seen)
    && (forall p :: p in seen ==> exists n: nat :: n <= looks && p in Undeleted(entries, changes, n))
  }

  /** After how many changes member `k` has its turn. */
  function StepOf(members: seq<Path>, looks: nat, k: nat): nat
    requires k < |members|
  {
    looks + |members| - k
  }

  /** `p` had its turn among the members from `i` on: it lies in the tree, and was not found to be a link just before. */
  predicate IsTaken(root: Path, members: seq<Path>, linked: nat -> set<Path>, looks: nat, i: nat, p: Path) {
    exists k :: i <= k < |members| && members[k] == p && root <= p && p !in linked(StepOf(members, looks, k))
  }

  /** Compared with what would be there, only members from `i` on that had their turn are missing. */
  predicate OnlyTakenMiss(entries: set<Path>, undeleted: set<Path>, root: Path, members: seq<Path>, linked: nat -> set<Path>, looks: nat, i: nat) {
    && entries <= undeleted
    && forall p :: p in undeleted && p !in entries ==> IsTaken(root, members, linked, looks, i, p)
  }

  lemma ChangeKeepsTaken(entries: set<Path>, undeleted: set<Path>, c: Change, root: Path, members: seq<Path>, linked: nat -> set<Path>,
                         looks: nat, i: nat)
    requires OnlyTakenMiss(entries, undeleted, root, members, linked, looks, i + 1)
    ensures OnlyTakenMiss(Changed(entries, c), Changed(undeleted, c), root, members, linked, looks, i)
  {
    forall p | p in Changed(undeleted, c) && p !in Changed(entries, c) ensures IsTaken(root, members, linked, looks, i, p) {
      assert IsTaken(root, members, linked, looks, i + 1, p);
    }
  }

  lemma TurnKeepsTaken(entries: set<Path>, undeleted: set<Path>, root: Path, members: seq<Path>, linked: nat -> set<Path>, looks: nat, i: nat)
    requires OnlyTakenMiss(entries, undeleted, root, members, linked, looks, i)
    requires i < |members| && root <= members[i] && members[i] !in linked(StepOf(members, looks, i))
    ensures OnlyTakenMiss(entries - {members[i]}, undeleted, root, members, linked, looks, i)
  {
    assert IsTaken(root, members, linked, looks, i, members[i]);
  }

  class Directory {
    var entries: set<Path>

    constructor (entries: set<Path>)
      ensures this.entries == entries
    {
      this.entries := entries;
    }

    /** A directory that is not empty stays. */
    method Remove(path: Path) returns (r: Outcome)
      modifies this
      ensures r == if path !in old(entries) then Absent else if HasBelow(old(entries), path) then NotEmpty else Removed
      ensures entries == old(entries) - if r == Removed then {path} else {}
    {
      if path !in entries { return Absent; }
      if HasBelow(entries, path) { return NotEmpty; }
      entries := entries - {path};
      r := Removed;
    }

    /** Others make their first `looks` changes. */
    method Pass(changes: nat -> Change, looks: nat)
      modifies this
      ensures entries == Undeleted(old(entries), changes, looks)
    {
      for n := 0 to looks
        invariant entries == Undeleted(old(entries), changes, n)
      {
        entries := Changed(entries, changes(n));
      }
    }

    /** Deletes members of the plan and nothing else, whatever others do meanwhile, and none that is found to be a link at its
        turn. The look for unplanned entries takes `looks`
        changes by others and shows `seen`; `linked(n)` are the paths found to be links after `n` changes. An unplanned entry
        that is there throughout the look stops everything. Success on an unchanged directory means that every member is gone,
        and a plan in order that covers what is there always succeeds on it. */
    method RemoveTarget(root: Path, members: seq<Path>, linked: nat -> set<Path>, changes: nat -> Change, looks: nat, seen: set<Path>)
      returns (ok: bool, steps: nat)
      requires IsLook(entries, changes, looks, root, seen)
      modifies this
      ensures forall p :: p !in members ==> (p in entries <==> p in Undeleted(old(entries), changes, steps))
      ensures forall p :: p in entries ==> p in Undeleted(old(entries), changes, steps)
      ensures forall p :: p in Undeleted(old(entries), changes, steps) && p !in entries ==> IsTaken(root, members, linked, looks, 0, p)
      ensures ok ==> root !in linked(0) && forall k :: 0 <= k < |members| ==> root <= members[k] && members[k] !in linked(StepOf(members, looks, k))
      ensures (exists p :: root <= p && p !in members && IsThroughout(old(entries), changes, looks, p)) ==>
                !ok && entries == Undeleted(old(entries), changes, steps)
      ensures ok && IsUndisturbed(changes) ==> forall p :: p in members ==> p !in entries
      ensures (&& IsUndisturbed(changes) && IsOrdered(members) && AreBelow(members, root) && IsCovered(old(entries), root, members)
               && forall n :: root !in linked(n) && forall p :: p in members ==> p !in linked(n)) ==> ok
    {
      steps := 0;
      if root in linked(0) { return false, steps; }
      Pass(changes, looks);
      steps := looks;
      if IsUndisturbed(changes) { UndisturbedLook(old(entries), changes, looks, root, seen); }
      if !IsCovered(seen, root, members) { return false, steps; }
      var i := |members|;
      while i > 0
        invariant 0 <= i <= |members| && steps == looks + |members| - i
        invariant OnlyTakenMiss(entries, Undeleted(old(entries), changes, steps), root, members, linked, looks, i)
        invariant forall k :: i <= k < |members| ==> root <= members[k] && members[k] !in linked(StepOf(members, looks, k))
        invariant IsUndisturbed(changes) ==>
                    entries <= old(entries) && forall k :: i <= k < |members| ==> members[k] !in entries
      {
        i := i - 1;
        var path := members[i];
        ChangeKeepsTaken(entries, Undeleted(old(entries), changes, steps), changes(steps), root, members, linked, looks, i);
        entries := Changed(entries, changes(steps));
        steps := steps + 1;
        if !(root <= path) || path in linked(steps) { return false, steps; }
        ghost var before := entries;
        TurnKeepsTaken(entries, Undeleted(old(entries), changes, steps), root, members, linked, looks, i);
        var r := Remove(path);
        if r == NotEmpty {
          BusyIsUnplanned(before, old(entries), root, members, i);
          return false, steps;
        }
      }
      ok := true;
    }

    /** Planning a tree and removing it, with nothing changed in between, takes away exactly the tree. */
    method RemoveTree(root: Path, t: Tree) returns (ok: bool)
      requires HasNames(t.children)
      requires forall p :: p in entries && root <= p <==> p in Walk(root, t)
      modifies this
      ensures ok && forall p :: p in entries <==> p in old(entries) && !(root <= p)
    {
      var members := Walk(root, t);
      WalkIsOrdered(root, t);
      var still: nat -> Change := _ => Change({}, {});
      var seen := set p | p in entries && root <= p;
      ghost var was := entries;
      Undisturbed(was, still, 0);
      assert forall p :: p in seen ==> p in Undeleted(was, still, 0);
      var steps;
      ok, steps := RemoveTarget(root, members, _ => {}, still, 0, seen);
      Undisturbed(was, still, steps);
      assert forall p :: p in members ==> root <= p;
    }
  }

  lemma {:induction false} Undisturbed(entries: set<Path>, changes: nat -> Change, n: nat)
    requires IsUndisturbed(changes)
    ensures Undeleted(entries, changes, n) == entries
  {
    if n > 0 { Undisturbed(entries, changes, n - 1); }
  }

  lemma UndisturbedLook(entries: set<Path>, changes: nat -> Change, looks: nat, root: Path, seen: set<Path>)
    requires IsUndisturbed(changes) && IsLook(entries, changes, looks, root, seen)
    ensures seen <= entries && Undeleted(entries, changes, looks) == entries
  {
    forall n: nat ensures Undeleted(entries, changes, n) == entries { Undisturbed(entries, changes, n); }
  }

  /** In an ordered plan that covers the tree, what lies in a member was deleted before it. */
  lemma BusyIsUnplanned(entries: set<Path>, was: set<Path>, root: Path, members: seq<Path>, i: nat)
    requires i < |members| && HasBelow(entries, members[i]) && root <= members[i]
    ensures IsOrdered(members) && entries <= was && IsCovered(was, root, members) ==>
              exists k :: i < k < |members| && members[k] in entries
  {
    var p :| p in entries && members[i] < p;
    if IsOrdered(members) && entries <= was && IsCovered(was, root, members) {
      assert root <= p;
      var k :| 0 <= k < |members| && members[k] == p;
      assert members[i] <= members[k];
    }
  }
}
