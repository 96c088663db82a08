/**
materialize (cmd/maktaba-launcher/materialize.go): a kept release's tree copied over the
app's bundle, what the failed release added removed, and all of it done again at the next
start when it was cut short. A tree maps paths relative to its root to what is there; names
are as a Windows file system compares them, all in one case.
*/
module Materialize {

  type Path = seq<string>

  /** Other: what is neither a directory nor a regular file. */
  datatype Node = Dir | File(content: string) | Other

  type Tree = map<Path, Node>

  datatype Option<T> = None | Some(value: T)

  const MARKER: Path := [".kept"]

  /** How a step ends: done, an error, or the process ends during it. */
  datatype Outcome = Fine | Fails | Cut

  /**
  The surroundings, by step: how it ends, what a copy cut short leaves beside the file (None:
  nothing), and which paths a removal cut short had removed.
  */
  datatype Env = Env(step: nat -> Outcome, leaves: nat -> Option<string>, gone: nat -> set<Path>)

  function Get(t: Tree, p: Path): Option<Node> { if p in t then Some(t[p]) else None }

  function Tmp(p: Path): Path
    requires p != []
  {
    Parent(p) + [p[|p| - 1] + ".materialize"]
  }

  function Old(p: Path): Path
    requires p != []
  {
    Parent(p) + [p[|p| - 1] + ".old"]
  }

  /** Everything is in a directory. */
  ghost predicate IsTree(t: Tree) {
    Get(t, []) == Some(Dir) && forall p {:trigger InDir(t, p)} :: p in t ==> InDir(t, p)
  }

  predicate InDir(t: Tree, p: Path) { p == [] || Get(t, Parent(p)) == Some(Dir) }

  function Parent(p: Path): Path
    requires p != []
  {
    p[..|p| - 1]
  }

  /** A kept copy, as the walk goes through it, and the running launcher. */
  datatype Job = Job(kept: Tree, walk: seq<Path>, self: Path) {

    ghost predicate Valid() {
      && IsTree(kept) && self != []
      && (MARKER in kept ==> kept[MARKER].File?)
      && WalksAll() && WalksOnce() && NoTmpKept()
    }

    /** The walk meets every path, after its directory. */
    ghost predicate WalksAll() {
      && (forall p :: p in kept ==> p in walk)
      && (forall i {:trigger DirFirst(i)} :: 0 <= i < |walk| ==> DirFirst(i))
    }

    ghost predicate DirFirst(i: nat)
      requires i < |walk|
    {
      walk[i] != [] ==> Parent(walk[i]) in walk[..i]
    }

    /** It meets each once, and nothing else. */
    ghost predicate WalksOnce() {
      && (forall i :: 0 <= i < |walk| ==> walk[i] in kept)
      && (forall i, j :: 0 <= i < j < |walk| ==> walk[i] != walk[j])
    }

    ghost predicate NoTmpKept() { forall p :: Copied(p) ==> Tmp(p) !in kept && Tmp(p) != self }

    predicate Wanted(p: Path) { p in kept && p != [] && p != MARKER }

    predicate Made(p: Path) { Wanted(p) && kept[p].Dir? }

    predicate Copied(p: Path) { Wanted(p) && kept[p].File? && p != self }

    predicate Spared(p: Path) { Wanted(p) || p == self || (self != [] && p == Old(self)) }

    /** Every directory on the way to p, and p itself, stays. */
    predicate Reached(p: Path) { p == [] || (Spared(p) && Reached(Parent(p))) }

    /** Stays as it was: the launcher, its old copy, and what the kept copy has no regular file for. */
    predicate Lasting(p: Path) { p != [] && Reached(p) && !Made(p) && !Copied(p) }

    /** What is at p once the bundle b was made the kept release. */
    function Final(b: Tree, p: Path): Option<Node> {
      if p == [] || Made(p) then Some(Dir)
      else if Copied(p) then Some(kept[p])
      else if Reached(p) then Get(b, p)
      else None
    }

    /** Nothing of another kind is where the copy writes. */
    ghost predicate NoClash(b: Tree) { forall p :: Wanted(p) ==> NoClashAt(b, p) }

    predicate NoClashAt(b: Tree, p: Path) {
      && (Made(p) ==> Get(b, p) == None || Get(b, p) == Some(Dir))
      && (Copied(p) ==> Get(b, p) != Some(Dir) && (Get(b, Tmp(p)) == None || Get(b, Tmp(p)).value.File?))
    }

    /** The walk has been at p. */
    predicate Placed(b: Tree, p: Path) {
      && (Made(p) ==> Get(b, p) == Some(Dir))
      && (Copied(p) ==> Get(b, p) == Some(kept[p]))
    }

    /** a and b differ in nothing that lasts. */
    ghost predicate Alike(a: Tree, b: Tree) { forall p :: Lasting(p) ==> Get(a, p) == Get(b, p) }
  }

  // ---------------------------------------------------------------------
  // Paths
  // ---------------------------------------------------------------------

  lemma {:induction false} KeptIsReached(job: Job, p: Path)
    requires IsTree(job.kept) && (MARKER in job.kept ==> job.kept[MARKER].File?) && job.Wanted(p)
    ensures job.Reached(p)
  {
    var d := Parent(p);
    assert InDir(job.kept, p);
    if d != [] { KeptIsReached(job, d); }
  }

  lemma SuffixesDiffer(a: string, b: string)
    ensures a + ".old" != b + ".materialize"
  {
    var x, y := a + ".old", b + ".materialize";
    assert x[|x| - 1] == 'd' && y[|y| - 1] == 'e';
  }

  lemma TmpIsNotSpared(job: Job, p: Path)
    requires job.Valid() && job.Copied(p)
    ensures Tmp(p) != [] && !job.Spared(Tmp(p))
  {
    var t, o := Tmp(p), Old(job.self);
    assert t[|t| - 1] == p[|p| - 1] + ".materialize" && o[|o| - 1] == job.self[|job.self| - 1] + ".old";
    SuffixesDiffer(job.self[|job.self| - 1], p[|p| - 1]);
  }

  lemma TmpsDiffer(p: Path, q: Path)
    requires p != [] && q != [] && Tmp(p) == Tmp(q)
    ensures p == q
  {
    var t, n := Tmp(p), |p| - 1;
    assert |Tmp(q)| == |q| && t[n] == p[n] + ".materialize" && t[n] == q[n] + ".materialize";
    assert p[n] == (p[n] + ".materialize")[..|t[n]| - 12] == (q[n] + ".materialize")[..|t[n]| - 12] == q[n];
    assert p[..n] == t[..n] == q[..n];
    assert p == p[..n] + [p[n]] && q == q[..n] + [q[n]];
  }

  lemma {:induction false} ReachedPrefix(job: Job, p: Path, e: Path)
    requires job.Reached(p) && e <= p && e != []
    ensures job.Spared(e)
  {
    if |e| < |p| { ReachedPrefix(job, Parent(p), e); } else { assert e == p; }
  }

  /** What is not reached is in something to be removed. */
  lemma {:induction false} TopExtra(job: Job, t: Tree, p: Path) returns (e: Path)
    requires IsTree(t) && p in t && !job.Reached(p)
    ensures e in Extras(job, t) && e <= p
  {
    var d := Parent(p);
    assert InDir(t, p);
    if job.Reached(d) { e := p; } else { e := TopExtra(job, t, d); }
  }

  /** What the failed release added: the topmost paths not wanted. */
  function Extras(job: Job, t: Tree): set<Path> {
    set e | e in t && e != [] && !job.Spared(e) && job.Reached(Parent(e))
  }

  function Without(t: Tree, e: Path): Tree { map q | q in t && !(e <= q) :: t[q] }

  /** Nothing is at or under e. */
  ghost predicate Cleared(t: Tree, e: Path) { forall q :: q in t ==> !(e <= q) }

  lemma StaysCleared(t: Tree, u: Tree, e: Path)
    requires Cleared(t, e) && forall q :: q in u ==> Get(u, q) == Get(t, q)
    ensures Cleared(u, e)
  {
    forall q | q in u ensures !(e <= q) { assert Get(u, q) == Get(t, q); }
  }

  /** Part of what is at and under e removed, nothing before what is in it. */
  function Eaten(t: Tree, e: Path, gone: set<Path>): Tree {
    map q | q in t && !(e <= q && forall r :: r in t && q <= r ==> r in gone) :: t[q]
  }

  lemma PutIsTree(t: Tree, p: Path, n: Node)
    requires IsTree(t) && p != [] && InDir(t, p) && (p in t && t[p].Dir? ==> n.Dir?)
    ensures IsTree(t[p := n])
  {
    var u := t[p := n];
    forall q | q in u ensures InDir(u, q) { assert InDir(t, q); }
  }

  lemma DropIsTree(t: Tree, p: Path)
    requires IsTree(t) && p != [] && (p in t ==> !t[p].Dir?)
    ensures IsTree(t - {p})
  {
    var u := t - {p};
    forall q | q in u ensures InDir(u, q) { assert InDir(t, q); }
  }

  lemma TmpIsBeside(p: Path)
    requires p != []
    ensures Tmp(p) != p && Tmp(p) != [] && Parent(Tmp(p)) == Parent(p)
  {
    assert |Tmp(p)[|p| - 1]| == |p[|p| - 1]| + 12;
  }

  lemma EatenIsTree(t: Tree, e: Path, gone: set<Path>)
    requires IsTree(t) && e != []
    ensures IsTree(Eaten(t, e, gone)) && IsTree(Without(t, e))
  {
    var u, w := Eaten(t, e, gone), Without(t, e);
    forall q | q in u ensures InDir(u, q) {
      assert InDir(t, q);
      if q != [] { assert forall r :: r in t && q <= r ==> Parent(q) <= r; }
    }
    forall q | q in w ensures InDir(w, q) { assert InDir(t, q); }
  }

  /** a is b but for what a copy left beside p. */
  ghost predicate HalfCopied(a: Tree, b: Tree, p: Path)
    requires p != []
  {
    && (forall q :: q != Tmp(p) ==> Get(a, q) == Get(b, q))
    && (Get(a, Tmp(p)).None? || Get(a, Tmp(p)) == Get(b, Tmp(p)) || a[Tmp(p)].File?)
  }

  ghost predicate Smooth(env: Env) { forall k :: env.step(k).Fine? }

  // ---------------------------------------------------------------------
  // The walk over the kept copy
  // ---------------------------------------------------------------------

  /** t has at p, and beside it if it is copied, what b had. */
  predicate Unwalked(job: Job, t: Tree, b: Tree, p: Path) {
    Get(t, p) == Get(b, p) && (job.Copied(p) ==> Get(t, Tmp(p)) == Get(b, Tmp(p)))
  }

  /** The walk made t of b and is about to go to its i-th path. */
  ghost predicate WalkedTo(job: Job, i: nat, b: Tree, t: Tree) {
    && IsTree(t) && job.Alike(t, b) && i <= |job.walk|
    && (forall j :: 0 <= j < i ==> job.Placed(t, job.walk[j]) && job.NoClashAt(b, job.walk[j]))
    && (forall j :: i <= j < |job.walk| ==> Unwalked(job, t, b, job.walk[j]))
    && (job.NoClash(b) ==> job.NoClash(t))
  }

  lemma ParentIsThere(job: Job, i: nat, b: Tree, t: Tree)
    requires job.Valid() && WalkedTo(job, i, b, t) && i < |job.walk| && job.Wanted(job.walk[i])
    ensures InDir(t, job.walk[i])
  {
    var p := job.walk[i];
    var d := Parent(p);
    assert InDir(job.kept, p) && job.DirFirst(i);
    var j :| 0 <= j < i && job.walk[j] == d;
    assert d != [] ==> job.Made(d) && job.Placed(t, d);
  }

  lemma NothingMade(job: Job, i: nat, b: Tree, t: Tree)
    requires job.Valid() && WalkedTo(job, i, b, t) && i < |job.walk|
    requires !job.Made(job.walk[i]) && !job.Copied(job.walk[i])
    ensures WalkedTo(job, i + 1, b, t)
  {
  }

  /** A path made or copied leaves the others of the walk as they were. */
  lemma OthersStay(job: Job, i: nat, b: Tree, t: Tree, u: Tree)
    requires job.Valid() && WalkedTo(job, i, b, t) && i < |job.walk|
    requires job.Made(job.walk[i]) || job.Copied(job.walk[i])
    requires forall q :: q != job.walk[i] && (job.Copied(job.walk[i]) ==> q != Tmp(job.walk[i])) ==> Get(u, q) == Get(t, q)
    ensures forall j :: 0 <= j < i ==> job.Placed(u, job.walk[j])
    ensures forall j :: i < j < |job.walk| ==> Unwalked(job, u, b, job.walk[j])
    ensures job.Alike(u, b)
  {
    var p := job.walk[i];
    forall q | q in job.kept && q != p ensures Get(u, q) == Get(t, q) {}
    forall j | i < j < |job.walk| ensures Unwalked(job, u, b, job.walk[j]) {
      var q := job.walk[j];
      assert q in job.walk && Unwalked(job, t, b, q);
      if job.Copied(q) && job.Copied(p) && Tmp(q) == Tmp(p) { TmpsDiffer(p, q); }
    }
    forall j | 0 <= j < i ensures job.Placed(u, job.walk[j]) { assert job.walk[j] in job.walk; }
    if job.Copied(p) { TmpIsNotSpared(job, p); }
  }

  lemma DirMade(job: Job, i: nat, b: Tree, t: Tree, u: Tree)
    requires job.Valid() && WalkedTo(job, i, b, t) && i < |job.walk| && job.Made(job.walk[i])
    requires IsTree(u) && u == t[job.walk[i] := Dir] && job.NoClashAt(t, job.walk[i])
    ensures WalkedTo(job, i + 1, b, u)
  {
    OthersStay(job, i, b, t, u);
    assert Unwalked(job, t, b, job.walk[i]);
    if job.NoClash(b) {
      forall q | job.Wanted(q) ensures job.NoClashAt(u, q) { assert job.NoClashAt(t, q); }
    }
  }

  lemma FileCopied(job: Job, i: nat, b: Tree, t: Tree, u: Tree)
    requires job.Valid() && WalkedTo(job, i, b, t) && i < |job.walk| && job.Copied(job.walk[i])
    requires IsTree(u) && job.NoClashAt(t, job.walk[i])
    requires u == (t - {Tmp(job.walk[i])})[job.walk[i] := job.kept[job.walk[i]]]
    ensures WalkedTo(job, i + 1, b, u)
  {
    OthersStay(job, i, b, t, u);
    assert Unwalked(job, t, b, job.walk[i]);
    if job.NoClash(b) {
      forall q | job.Wanted(q) ensures job.NoClashAt(u, q) { assert job.NoClashAt(t, q); }
    }
  }

  lemma CopyCutShort(job: Job, b: Tree, t: Tree, u: Tree, p: Path)
    requires job.Valid() && job.Copied(p) && job.Alike(t, b) && (job.NoClash(b) ==> job.NoClash(t))
    requires HalfCopied(u, t, p)
    ensures job.Alike(u, b) && (job.NoClash(b) ==> job.NoClash(u))
  {
    TmpIsNotSpared(job, p);
    if job.NoClash(b) {
      forall q | job.Wanted(q) ensures job.NoClashAt(u, q) {
        assert job.NoClashAt(t, q);
        if job.Copied(q) { assert job.NoClashAt(t, p); }
      }
    }
  }

  lemma WalkDone(job: Job, b: Tree, t: Tree)
    requires job.Valid() && WalkedTo(job, |job.walk|, b, t)
    ensures job.NoClash(b) && forall p :: job.Placed(t, p)
  {
    forall p | job.Wanted(p) ensures job.NoClashAt(b, p) && job.Placed(t, p) { assert p in job.walk; }
  }

  class Bundle {
    var tree: Tree
    var steps: nat

    constructor (tree: Tree)
      ensures this.tree == tree && steps == 0
    {
      this.tree := tree;
      steps := 0;
    }

    method Step(env: Env) returns (o: Outcome)
      modifies this`steps
      ensures o == env.step(old(steps)) && steps == old(steps) + 1
    {
      o := env.step(steps);
      steps := steps + 1;
    }

    /** os.MkdirAll of a directory whose own is there. */
    method MakeDir(p: Path, env: Env) returns (ok: bool)
      requires IsTree(tree) && p != [] && InDir(tree, p)
      modifies this
      ensures IsTree(tree)
      ensures ok ==> tree == old(tree)[p := Dir]
      ensures !ok ==> tree == old(tree)
      ensures ok ==> p in old(tree) ==> old(tree)[p].Dir?
      ensures Smooth(env) ==> (ok <==> (p in old(tree) ==> old(tree)[p].Dir?))
    {
      var o := Step(env);
      ok := o.Fine? && (p in tree ==> tree[p].Dir?);
      PutIsTree(tree, p, Dir);
      if ok { tree := tree[p := Dir]; }
    }

    /** copyInto: beside the file, then renamed into place; the directory is there. */
    method CopyInto(p: Path, content: string, env: Env) returns (ok: bool)
      requires IsTree(tree) && p != [] && InDir(tree, p)
      modifies this
      ensures IsTree(tree)
      ensures ok ==> tree == (old(tree) - {Tmp(p)})[p := File(content)]
      ensures !ok ==> HalfCopied(tree, old(tree), p)
      ensures var free := (p in old(tree) ==> !old(tree)[p].Dir?) && (Tmp(p) in old(tree) ==> old(tree)[Tmp(p)].File?);
              (ok ==> free) && (Smooth(env) && free ==> ok)
    {
      var tmp := Tmp(p);
      ok := false;
      TmpIsBeside(p);
      var o := Step(env);
      if !o.Fine? || (tmp in tree && !tree[tmp].File?) { return; }
      o := Step(env);
      if o.Cut? {
        LeaveTmp(p, env);
        return;
      }
      if o.Fails? {
        DropTmp(p, env);
        return;
      }
      o := Step(env);
      if o.Cut? {
        LeaveTmp(p, env);
        return;
      }
      if o.Fails? || (p in tree && tree[p].Dir?) {
        DropTmp(p, env);
        return;
      }
      DropIsTree(tree, tmp);
      PutIsTree(tree - {tmp}, p, File(content));
      tree := (tree - {tmp})[p := File(content)];
      ok := true;
    }

    method LeaveTmp(p: Path, env: Env)
      requires IsTree(tree) && p != [] && InDir(tree, p) && (Tmp(p) in tree ==> tree[Tmp(p)].File?)
      modifies this
      ensures IsTree(tree) && HalfCopied(tree, old(tree), p)
    {
      var tmp := Tmp(p);
      TmpIsBeside(p);
      if env.leaves(steps).Some? { PutIsTree(tree, tmp, File(env.leaves(steps).value)); }
      DropIsTree(tree, tmp);
      var l := env.leaves(steps);
      tree := if l.Some? then tree[tmp := File(l.value)] else tree - {tmp};
    }

    /** os.Remove of the copy, its error ignored. */
    method DropTmp(p: Path, env: Env)
      requires IsTree(tree) && p != [] && InDir(tree, p) && (Tmp(p) in tree ==> tree[Tmp(p)].File?)
      modifies this
      ensures IsTree(tree) && HalfCopied(tree, old(tree), p)
    {
      var o := Step(env);
      TmpIsBeside(p);
      DropIsTree(tree, Tmp(p));
      if o.Fine? { tree := tree - {Tmp(p)}; } else { LeaveTmp(p, env); }
    }

    method RemoveAll(e: Path, env: Env) returns (ok: bool)
      requires IsTree(tree) && e != []
      modifies this
      ensures IsTree(tree)
      ensures forall q :: !(e <= q) ==> Get(tree, q) == Get(old(tree), q)
      ensures forall q :: q in tree ==> Get(tree, q) == Get(old(tree), q)
      ensures ok ==> Cleared(tree, e)
      ensures Smooth(env) ==> ok
    {
      var o := Step(env);
      EatenIsTree(tree, e, env.gone(steps));
      ok := o.Fine?;
      tree := if ok then Without(tree, e) else Eaten(tree, e, env.gone(steps));
    }

    /** The walk over the kept copy: directories made, files copied into place. */
    method CopyAll(job: Job, env: Env) returns (ok: bool)
      requires job.Valid() && IsTree(tree)
      modifies this
      ensures IsTree(tree) && job.Alike(tree, old(tree))
      ensures job.NoClash(old(tree)) ==> job.NoClash(tree)
      ensures ok ==> job.NoClash(old(tree)) && forall p :: job.Placed(tree, p)
      ensures Smooth(env) && job.NoClash(old(tree)) ==> ok
    {
      ghost var b := tree;
      ok := true;
      for i := 0 to |job.walk|
        invariant WalkedTo(job, i, b, tree)
      {
        var p := job.walk[i];
        ghost var t := tree;
        if job.Made(p) {
          ParentIsThere(job, i, b, tree);
          ok := MakeDir(p, env);
          if !ok { return; }
          DirMade(job, i, b, t, tree);
        } else if job.Copied(p) {
          ParentIsThere(job, i, b, tree);
          ok := CopyInto(p, job.kept[p].content, env);
          if !ok {
            CopyCutShort(job, b, t, tree, p);
            return;
          }
          FileCopied(job, i, b, t, tree);
        } else {
          NothingMade(job, i, b, tree);
        }
      }
      WalkDone(job, b, tree);
      ok := true;
    }

    /** What the failed release added, removed. */
    method RemoveExtras(job: Job, env: Env) returns (ok: bool)
      requires job.Valid() && IsTree(tree)
      modifies this
      ensures IsTree(tree)
      ensures forall q :: q in tree ==> Get(tree, q) == Get(old(tree), q)
      ensures forall q :: job.Reached(q) ==> Get(tree, q) == Get(old(tree), q)
      ensures ok ==> forall q :: q in tree ==> job.Reached(q)
      ensures Smooth(env) ==> ok
    {
      ghost var t := tree;
      var left := Extras(job, tree);
      while left != {}
        invariant IsTree(tree) && left <= Extras(job, t)
        invariant forall q :: q in tree ==> Get(tree, q) == Get(t, q)
        invariant forall q :: job.Reached(q) ==> Get(tree, q) == Get(t, q)
        invariant forall e :: e in Extras(job, t) && e !in left ==> Cleared(tree, e)
        decreases |left|
      {
        var e :| e in left;
        forall q | job.Reached(q) && e <= q ensures false { ReachedPrefix(job, q, e); }
        ghost var u := tree;
        ok := RemoveAll(e, env);
        if !ok { return; }
        forall d | Cleared(u, d) ensures Cleared(tree, d) { StaysCleared(u, tree, d); }
        left := left - {e};
      }
      forall q | q in tree ensures job.Reached(q) {
        if !job.Reached(q) {
          assert q in t;
          var e := TopExtra(job, t, q);
        }
      }
      ok := true;
    }

    /** materialize. */
    method Materialize(job: Job, env: Env) returns (ok: bool)
      requires job.Valid() && IsTree(tree)
      modifies this
      ensures IsTree(tree) && job.Alike(tree, old(tree))
      ensures job.NoClash(old(tree)) ==> job.NoClash(tree)
      ensures ok ==> forall p :: Get(tree, p) == job.Final(old(tree), p)
      ensures MARKER !in job.kept ==> !ok && tree == old(tree)
      ensures ok ==> MARKER in job.kept && job.NoClash(old(tree))
      ensures Smooth(env) && MARKER in job.kept && job.NoClash(old(tree)) ==> ok
    {
      ok := MARKER in job.kept;
      if !ok { return; }
      ok := CopyAll(job, env);
      if !ok { return; }
      ghost var t := tree;
      ok := RemoveExtras(job, env);
      LeftAsWanted(job, old(tree), t, tree, ok);
    }

    /**
    However often it is cut short, the run that comes through leaves what one run would have
    left, and an unhindered one does come through.
    */
    method Restarted(job: Job, runs: seq<Env>) returns (ok: bool)
      requires job.Valid() && IsTree(tree)
      modifies this
      ensures ok ==> forall p :: Get(tree, p) == job.Final(old(tree), p)
      ensures (exists i :: 0 <= i < |runs| && Smooth(runs[i])) && MARKER in job.kept && job.NoClash(old(tree)) ==> ok
    {
      ok := false;
      for i := 0 to |runs|
        invariant IsTree(tree) && job.Alike(tree, old(tree))
        invariant job.NoClash(old(tree)) ==> job.NoClash(tree)
        invariant (exists j :: 0 <= j < i && Smooth(runs[j])) ==> !(MARKER in job.kept && job.NoClash(old(tree)))
      {
        ghost var t := tree;
        ok := Materialize(job, runs[i]);
        if ok {
          forall p ensures job.Final(t, p) == job.Final(old(tree), p) { AlikeEndAlike(job, t, old(tree), p); }
          return;
        }
      }
    }
  }

  lemma AlikeEndAlike(job: Job, a: Tree, b: Tree, p: Path)
    requires job.Alike(a, b)
    ensures job.Final(a, p) == job.Final(b, p)
  {
  }

  lemma LeftAsWanted(job: Job, b: Tree, t: Tree, u: Tree, ok: bool)
    requires job.Valid() && IsTree(u) && job.Alike(t, b) && job.NoClash(b) && job.NoClash(t)
    requires forall p :: job.Placed(t, p)
    requires forall q :: q in u ==> Get(u, q) == Get(t, q)
    requires forall q :: job.Reached(q) ==> Get(u, q) == Get(t, q)
    requires ok ==> forall q :: q in u ==> job.Reached(q)
    ensures job.Alike(u, b) && job.NoClash(u)
    ensures ok ==> forall p :: Get(u, p) == job.Final(b, p)
  {
    forall p | job.Wanted(p) ensures job.NoClashAt(u, p) { assert job.NoClashAt(t, p); }
    forall p | ok ensures Get(u, p) == job.Final(b, p) {
      assert job.Placed(t, p);
      if job.Wanted(p) { KeptIsReached(job, p); }
    }
  }

  // ---------------------------------------------------------------------
  // What the bundle then is
  // ---------------------------------------------------------------------

  /** The bundle's regular files are the kept copy's, but where the launcher runs from. */
  lemma FilesAreTheKeptOnes(job: Job, b: Tree, p: Path, content: string)
    requires job.Valid() && p != job.self && p != Old(job.self) && !(job.Wanted(p) && job.kept[p].Other?)
    ensures job.Final(b, p) == Some(File(content)) <==> p != MARKER && Get(job.kept, p) == Some(File(content))
  {
    assert job.Reached(p) && p != [] ==> job.Spared(p);
  }

  /** The running launcher stays exactly when the directories on its way are the kept release's too. */
  lemma LauncherStays(job: Job, b: Tree)
    requires job.Valid() && IsTree(b) && Get(b, job.self).Some? && b[job.self].File?
    requires job.NoClash(b)
    ensures job.Final(b, job.self) == Get(b, job.self) <==> job.Reached(Parent(job.self))
  {
    assert job.Wanted(job.self) ==> job.NoClashAt(b, job.self);
  }

  /** So does the one it replaced, beside it, where the kept release has nothing of that name; a file it has replaces it. */
  lemma OldLauncherStays(job: Job, b: Tree)
    requires job.Valid() && Get(b, Old(job.self)).Some?
    ensures Old(job.self) !in job.kept ==>
              (job.Final(b, Old(job.self)) == Get(b, Old(job.self)) <==> job.Reached(Parent(job.self)))
    ensures Old(job.self) in job.kept && job.kept[Old(job.self)].File? && Old(job.self) != MARKER ==>
              job.Final(b, Old(job.self)) == Some(job.kept[Old(job.self)])
  {
    var old_ := Old(job.self);
    assert Parent(old_) == Parent(job.self);
    assert old_[|old_| - 1] == job.self[|job.self| - 1] + ".old";
    assert |old_[|old_| - 1]| > |job.self[|job.self| - 1]|;
  }

  /** No copy cut short is left beside a file. */
  lemma NoTmpLeft(job: Job, b: Tree, p: Path)
    requires job.Valid() && job.Copied(p)
    ensures job.Final(b, Tmp(p)).None?
  {
    TmpIsNotSpared(job, p);
  }

  /** Done once more, it changes nothing. */
  lemma DoneTwiceIsDoneOnce(job: Job, b: Tree, c: Tree, p: Path)
    requires forall q :: Get(c, q) == job.Final(b, q)
    ensures job.Final(c, p) == job.Final(b, p)
  {
    assert Get(c, p) == job.Final(b, p);
  }
}
