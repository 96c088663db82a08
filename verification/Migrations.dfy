/**
The SQLite migrations' applier (api/migrate_sqlite.go): each pending file in slot order, in a
transaction of its own unless it toggles foreign keys, and on record once it is applied. A run
that fails or is cut short is followed by others; MadeGoodIff says exactly when they make it good.
The database is the statements it has executed for good, in order, and the rows of the version table.
*/
module Migrations {

  /** A file: its slot, its statements (any legacy prelude first), and whether they run in a transaction. */
  datatype Migration = Migration(version: int, stmts: seq<string>, tx: bool)

  datatype Row = Row(version: int, applied: bool)

  /** How a step ends: done, an error, or the process ends before it. */
  datatype Outcome = Fine | Fails | Cut

  ghost predicate Smooth(env: nat -> Outcome) { forall k :: env(k).Fine? }

  /** appliedSQLiteVersions: the last row of a version says. */
  predicate Applied(rows: seq<Row>, version: int) {
    rows != [] &&
    if rows[|rows| - 1].version == version then rows[|rows| - 1].applied else Applied(rows[..|rows| - 1], version)
  }

  function Todo(rows: seq<Row>, migs: seq<Migration>): seq<Migration> {
    if migs == [] then []
    else if Applied(rows, migs[0].version) then Todo(rows, migs[1..])
    else [migs[0]] + Todo(rows, migs[1..])
  }

  function Versions(migs: seq<Migration>): seq<int> {
    if migs == [] then [] else Versions(migs[..|migs| - 1]) + [migs[|migs| - 1].version]
  }

  function RowsOf(migs: seq<Migration>): seq<Row> {
    if migs == [] then [] else RowsOf(migs[..|migs| - 1]) + [Row(migs[|migs| - 1].version, true)]
  }

  function StmtsOf(migs: seq<Migration>): seq<string> {
    if migs == [] then [] else StmtsOf(migs[..|migs| - 1]) + migs[|migs| - 1].stmts
  }

  /** Each is in a transaction, or has nothing to execute. */
  predicate AllOrNothing(migs: seq<Migration>) {
    forall i :: 0 <= i < |migs| ==> migs[i].tx || migs[i].stmts == []
  }

  /** Each slot has one file. */
  predicate OneFileASlot(migs: seq<Migration>) {
    forall i, j :: 0 <= i < j < |migs| ==> migs[i].version != migs[j].version
  }

  // ---------------------------------------------------------------------
  // A run, step by step
  // ---------------------------------------------------------------------

  /** The file is read, begun, its statements executed, recorded and committed. */
  function Steps(m: Migration): nat { |m.stmts| + (if m.tx then 4 else 2) }

  /** How many of the n steps from k on go well before one does not. */
  function FineFor(env: nat -> Outcome, k: nat, n: nat): (f: nat)
    ensures f <= n
    decreases n
  {
    if n == 0 || !env(k).Fine? then 0 else 1 + FineFor(env, k + 1, n - 1)
  }

  predicate AllFine(env: nat -> Outcome, k: nat, n: nat) { forall j :: k <= j < k + n ==> env(j).Fine? }

  lemma {:induction false} FineForIs(env: nat -> Outcome, k: nat, n: nat, f: nat)
    requires f <= n && AllFine(env, k, f) && (f < n ==> !env(k + f).Fine?)
    ensures FineFor(env, k, n) == f
    decreases f
  {
    if f > 0 {
      assert env(k).Fine?;
      FineForIs(env, k + 1, n - 1, f - 1);
    }
  }

  /** Of a file that took f steps, the statements executed for good though it is not on record. */
  function Past(m: Migration, f: nat): (n: nat)
    ensures n <= |m.stmts| && (m.tx || m.stmts == [] ==> n == 0)
  {
    if m.tx || f == 0 then 0 else if f <= |m.stmts| then f - 1 else |m.stmts|
  }

  /** How a run of todo ended: the files it applied, and of the next one the statements executed for good. */
  datatype Ended = Ended(done: nat, past: nat, ok: bool)

  function EndedFrom(todo: seq<Migration>, env: nat -> Outcome, k: nat): (e: Ended)
    ensures e.done <= |todo| && (e.ok <==> e.done == |todo|)
    ensures if e.ok then e.past == 0 else e.past <= |todo[e.done].stmts|
    ensures !e.ok && (todo[e.done].tx || todo[e.done].stmts == []) ==> e.past == 0
  {
    if todo == [] then Ended(0, 0, true)
    else
      var m := todo[0];
      var f := FineFor(env, k, Steps(m));
      if f < Steps(m) then Ended(0, Past(m, f), false)
      else
        var e := EndedFrom(todo[1..], env, k + Steps(m));
        e.(done := e.done + 1)
  }

  /** A run of todo whose steps end so; the first makes and reads the version table. */
  function RunOf(todo: seq<Migration>, env: nat -> Outcome): (e: Ended)
    ensures e.done <= |todo| && (e.ok ==> e.done == |todo|)
    ensures if e.done == |todo| then e.past == 0 else e.past <= |todo[e.done].stmts|
    ensures AllOrNothing(todo) ==> e.past == 0
  {
    if env(0).Fine? then EndedFrom(todo, env, 1) else Ended(0, 0, false)
  }

  /** What it executed for good. */
  function Executed(todo: seq<Migration>, e: Ended): seq<string>
    requires e.done <= |todo| && (e.done < |todo| ==> e.past <= |todo[e.done].stmts|)
  {
    StmtsOf(todo[..e.done]) + (if e.done < |todo| then todo[e.done].stmts[..e.past] else [])
  }

  /** What runs leave: the statements executed for good, the rows, and whether the last went through. */
  datatype Left = Left(log: seq<string>, rows: seq<Row>, ok: bool)

  /** Runs until one goes through, each of what is not on record yet. */
  function RunAll(rows: seq<Row>, migs: seq<Migration>, runs: seq<nat -> Outcome>): Left
    decreases |runs|
  {
    if runs == [] then Left([], rows, false)
    else
      var todo := Todo(rows, migs);
      var e := RunOf(todo, runs[0]);
      var later := rows + RowsOf(todo[..e.done]);
      if e.ok then Left(Executed(todo, e), later, true)
      else
        var l := RunAll(later, migs, runs[1..]);
        l.(log := Executed(todo, e) + l.log)
  }

  /** How many statements the runs executed of files they did not get on record then. */
  function Again(rows: seq<Row>, migs: seq<Migration>, runs: seq<nat -> Outcome>): nat
    decreases |runs|
  {
    if runs == [] then 0
    else
      var todo := Todo(rows, migs);
      var e := RunOf(todo, runs[0]);
      e.past + if e.ok then 0 else Again(rows + RowsOf(todo[..e.done]), migs, runs[1..])
  }

  /** The first n of todo are applied, and the run goes on as it does from here. */
  predicate UpTo(todo: seq<Migration>, env: nat -> Outcome, steps: nat, n: nat, done: seq<int>,
                 log0: seq<string>, rows0: seq<Row>, log: seq<string>, rows: seq<Row>)
  {
    && n <= |todo| && done == Versions(todo[..n])
    && rows == rows0 + RowsOf(todo[..n]) && log == log0 + StmtsOf(todo[..n])
    && RunOf(todo, env) == More(n, EndedFrom(todo[n..], env, steps))
  }

  function More(n: nat, e: Ended): Ended { e.(done := e.done + n) }

  /** A run of todo has ended: with what it applied, recorded and executed. */
  predicate Ran(todo: seq<Migration>, env: nat -> Outcome, done: seq<int>, ok: bool,
                log0: seq<string>, rows0: seq<Row>, log: seq<string>, rows: seq<Row>)
  {
    var e := RunOf(todo, env);
    && ok == e.ok && done == Versions(todo[..e.done])
    && log == log0 + Executed(todo, e) && rows == rows0 + RowsOf(todo[..e.done])
  }

  lemma NoneYet(todo: seq<Migration>, env: nat -> Outcome, log: seq<string>, rows: seq<Row>)
    ensures if env(0).Fine? then UpTo(todo, env, 1, 0, [], log, rows, log, rows)
            else Ran(todo, env, [], false, log, rows, log, rows)
  {
    assert todo[0..] == todo && todo[..0] == [];
    assert StmtsOf([]) == [] && RowsOf([]) == [] && log + [] == log && rows + [] == rows;
    if !env(0).Fine? && todo != [] { assert todo[0].stmts[..0] == []; }
  }

  lemma NoneLeft(todo: seq<Migration>, env: nat -> Outcome, steps: nat, done: seq<int>,
                 log0: seq<string>, rows0: seq<Row>, log: seq<string>, rows: seq<Row>)
    requires UpTo(todo, env, steps, |todo|, done, log0, rows0, log, rows)
    ensures Ran(todo, env, done, true, log0, rows0, log, rows)
  {
    assert todo[|todo|..] == [];
    assert StmtsOf(todo) + [] == StmtsOf(todo);
  }

  lemma OneMore(todo: seq<Migration>, env: nat -> Outcome, steps: nat, n: nat, done: seq<int>,
                log0: seq<string>, rows0: seq<Row>, log: seq<string>, rows: seq<Row>)
    requires UpTo(todo, env, steps, n, done, log0, rows0, log, rows)
    requires n < |todo| && FineFor(env, steps, Steps(todo[n])) == Steps(todo[n])
    ensures var m := todo[n];
            UpTo(todo, env, steps + Steps(m), n + 1, done + [m.version], log0, rows0,
                 log + m.stmts[..|m.stmts|], rows + [Row(m.version, true)])
  {
    var m := todo[n];
    assert todo[n..][0] == m && todo[n..][1..] == todo[n + 1..];
    assert todo[..n + 1][..n] == todo[..n] && m.stmts[..|m.stmts|] == m.stmts;
  }

  lemma OneFails(todo: seq<Migration>, env: nat -> Outcome, steps: nat, n: nat, done: seq<int>,
                 log0: seq<string>, rows0: seq<Row>, log: seq<string>, rows: seq<Row>)
    requires UpTo(todo, env, steps, n, done, log0, rows0, log, rows)
    requires n < |todo| && FineFor(env, steps, Steps(todo[n])) < Steps(todo[n])
    ensures var past := Past(todo[n], FineFor(env, steps, Steps(todo[n])));
            Ran(todo, env, done, false, log0, rows0, log + todo[n].stmts[..past], rows)
  {
    assert todo[n..][0] == todo[n];
    var past := Past(todo[n], FineFor(env, steps, Steps(todo[n])));
    assert EndedFrom(todo[n..], env, steps) == Ended(0, past, false);
  }

  class Database {
    var log: seq<string>
    var rows: seq<Row>
    var steps: nat

    constructor (log: seq<string>, rows: seq<Row>)
      ensures this.log == log && this.rows == rows
    {
      this.log, this.rows, steps := log, rows, 0;
    }

    method Step(env: nat -> Outcome) returns (ok: bool)
      modifies this`steps
      ensures (ok <==> env(old(steps)).Fine?) && steps == old(steps) + 1
    {
      ok := env(steps).Fine?;
      steps := steps + 1;
    }

    /** applyOneSQLite: all of it, or what an autocommit one had executed. */
    method ApplyOne(m: Migration, env: nat -> Outcome) returns (ok: bool)
      modifies this
      ensures var f := FineFor(env, old(steps), Steps(m));
              && (ok <==> f == Steps(m))
              && log == old(log) + m.stmts[..if ok then |m.stmts| else Past(m, f)]
      ensures rows == if ok then old(rows) + [Row(m.version, true)] else old(rows)
      ensures ok ==> steps == old(steps) + Steps(m)
      ensures !ok && m.tx ==> log == old(log)
      ensures Smooth(env) ==> ok
    {
      var was := log;
      ok := Step(env);
      if !ok {
        FineForIs(env, old(steps), Steps(m), 0);
        return;
      }
      if m.tx {
        ok := Step(env);
        if !ok {
          FineForIs(env, old(steps), Steps(m), 1);
          return;
        }
      }
      ghost var begun := if m.tx then 2 else 1;
      var done := log;
      for i := 0 to |m.stmts|
        invariant done == was + m.stmts[..i]
        invariant log == if m.tx then was else done
        invariant rows == old(rows)
        invariant steps == old(steps) + begun + i && AllFine(env, old(steps), begun + i)
      {
        ok := Step(env);
        if !ok {
          FineForIs(env, old(steps), Steps(m), begun + i);
          return;
        }
        done := done + [m.stmts[i]];
        if !m.tx { log := done; }
      }
      assert m.stmts[..|m.stmts|] == m.stmts;
      ok := Recorded(m, env, done, begun);
    }

    /** The row is written, and the transaction committed. */
    method Recorded(m: Migration, env: nat -> Outcome, done: seq<string>, ghost begun: nat) returns (ok: bool)
      requires begun == (if m.tx then 2 else 1) && begun + |m.stmts| <= steps
      requires AllFine(env, steps - begun - |m.stmts|, begun + |m.stmts|)
      requires !m.tx ==> log == done
      modifies this
      ensures var f := FineFor(env, old(steps) - begun - |m.stmts|, Steps(m));
              && (ok <==> f == Steps(m)) && (!ok ==> begun + |m.stmts| <= f)
      ensures log == (if ok then done else old(log))
      ensures rows == if ok then old(rows) + [Row(m.version, true)] else old(rows)
      ensures ok ==> steps == old(steps) - begun - |m.stmts| + Steps(m)
      ensures Smooth(env) ==> ok
    {
      ghost var k := steps - begun - |m.stmts|;
      ok := Step(env);
      if !ok {
        FineForIs(env, k, Steps(m), begun + |m.stmts|);
        return;
      }
      if m.tx {
        ok := Step(env);
        if !ok {
          FineForIs(env, k, Steps(m), begun + |m.stmts| + 1);
          return;
        }
      }
      FineForIs(env, k, Steps(m), Steps(m));
      log, rows := done, rows + [Row(m.version, true)];
    }

    /** The next pending one. */
    method ApplyNext(m: Migration, env: nat -> Outcome, ghost todo: seq<Migration>, ghost n: nat, before: seq<int>,
                     ghost log0: seq<string>, ghost rows0: seq<Row>) returns (done: seq<int>, ok: bool)
      requires n < |todo| && todo[n] == m && UpTo(todo, env, steps, n, before, log0, rows0, log, rows)
      modifies this
      ensures if ok then UpTo(todo, env, steps, n + 1, done, log0, rows0, log, rows)
              else Ran(todo, env, done, false, log0, rows0, log, rows)
      ensures Smooth(env) ==> ok
    {
      if FineFor(env, steps, Steps(m)) == Steps(m) {
        OneMore(todo, env, steps, n, before, log0, rows0, log, rows);
      } else {
        OneFails(todo, env, steps, n, before, log0, rows0, log, rows);
      }
      ok := ApplyOne(m, env);
      done := if ok then before + [m.version] else before;
    }

    /** applySQLiteMigrations: the versions it applied; ok: all that were pending. */
    method ApplyAll(migs: seq<Migration>, env: nat -> Outcome) returns (done: seq<int>, ok: bool)
      modifies this
      ensures Ran(Todo(old(rows), migs), env, done, ok, old(log), old(rows), log, rows)
      ensures Smooth(env) ==> ok
    {
      ghost var todo := Todo(rows, migs);
      var was := rows;
      done, steps := [], 0;
      NoneYet(todo, env, log, rows);
      ok := Step(env);
      if !ok { return; }
      ghost var n: nat := 0;
      assert todo[0..] == todo && migs[0..] == migs;
      for i := 0 to |migs|
        invariant n <= |todo| && todo[n..] == Todo(was, migs[i..])
        invariant UpTo(todo, env, steps, n, done, old(log), was, log, rows)
      {
        TodoNext(was, migs, i, todo, n);
        if !Applied(was, migs[i].version) {
          done, ok := ApplyNext(migs[i], env, todo, n, done, old(log), was);
          if !ok { return; }
          n := n + 1;
        }
      }
      ok := true;
      NoneLeft(todo, env, steps, done, old(log), was, log, rows);
    }

    /**
    Runs until one goes through. What they executed and recorded is what RunAll says; see
    MadeGoodIff and OnceIff for when that is what one run leaves.
    */
    method Restarted(migs: seq<Migration>, runs: seq<nat -> Outcome>) returns (ok: bool)
      modifies this
      ensures var l := RunAll(old(rows), migs, runs);
              ok == l.ok && log == old(log) + l.log && rows == l.rows
      ensures (exists i :: 0 <= i < |runs| && Smooth(runs[i])) ==> ok
    {
      assert runs[0..] == runs;
      for i := 0 to |runs|
        invariant forall j :: 0 <= j < i ==> !Smooth(runs[j])
        invariant Onward(RunAll(old(rows), migs, runs), old(log), RunAll(rows, migs, runs[i..]), log)
      {
        assert runs[i..][0] == runs[i] && runs[i..][1..] == runs[i + 1..];
        ghost var l0, rows1, log1 := RunAll(old(rows), migs, runs), rows, log;
        assert Onward(l0, old(log), RunAll(rows1, migs, runs[i..]), log1);
        var done: seq<int>;
        done, ok := ApplyAll(migs, runs[i]);
        ghost var e := RunOf(Todo(rows1, migs), runs[i]);
        StepOnward(l0, old(log), rows1, log1, migs, runs[i..]);
        if ok { return; }
      }
      ok := false;
    }
  }

  /** What is left of l, from log on, is l1 from log1 on. */
  predicate Onward(l: Left, log: seq<string>, l1: Left, log1: seq<string>) {
    l.ok == l1.ok && l.rows == l1.rows && log + l.log == log1 + l1.log
  }

  lemma StepOnward(l: Left, log: seq<string>, rows1: seq<Row>, log1: seq<string>, migs: seq<Migration>,
                   runs: seq<nat -> Outcome>)
    requires runs != [] && Onward(l, log, RunAll(rows1, migs, runs), log1)
    ensures var todo := Todo(rows1, migs);
            var e := RunOf(todo, runs[0]);
            var rows2, log2 := rows1 + RowsOf(todo[..e.done]), log1 + Executed(todo, e);
            Onward(l, log, if e.ok then Left([], rows2, true) else RunAll(rows2, migs, runs[1..]), log2)
  {
    var todo := Todo(rows1, migs);
    var e := RunOf(todo, runs[0]);
    if !e.ok {
      var rest := RunAll(rows1 + RowsOf(todo[..e.done]), migs, runs[1..]);
      assert log1 + (Executed(todo, e) + rest.log) == log1 + Executed(todo, e) + rest.log;
    }
  }

  /** What is to do, one file on. */
  lemma TodoNext(rows: seq<Row>, migs: seq<Migration>, i: nat, todo: seq<Migration>, n: nat)
    requires i < |migs| && n <= |todo| && todo[n..] == Todo(rows, migs[i..])
    ensures Applied(rows, migs[i].version) ==> todo[n..] == Todo(rows, migs[i + 1..])
    ensures !Applied(rows, migs[i].version) ==>
              n < |todo| && todo[n] == migs[i] && todo[n + 1..] == Todo(rows, migs[i + 1..])
  {
    assert migs[i..][0] == migs[i] && migs[i..][1..] == migs[i + 1..];
    if !Applied(rows, migs[i].version) {
      assert todo[n..][0] == migs[i] && todo[n..][1..] == todo[n + 1..];
    }
  }

  lemma {:induction false} OfBoth(a: seq<Migration>, b: seq<Migration>)
    ensures RowsOf(a + b) == RowsOf(a) + RowsOf(b) && StmtsOf(a + b) == StmtsOf(a) + StmtsOf(b)
  {
    if b == [] {
      assert a + b == a;
    } else {
      var n := |b| - 1;
      OfBoth(a, b[..n]);
      assert (a + b)[..|a| + n] == a + b[..n];
      Joined(RowsOf(a), RowsOf(b[..n]), [Row(b[n].version, true)]);
      Joined(StmtsOf(a), StmtsOf(b[..n]), b[n].stmts);
    }
  }

  /** k of todo, and then n of the others: the first k + n. */
  lemma OneRunMore(todo: seq<Migration>, k: nat, n: nat)
    requires k + n <= |todo|
    ensures RowsOf(todo[..k]) + RowsOf(todo[k..][..n]) == RowsOf(todo[..k + n])
    ensures StmtsOf(todo[..k]) + StmtsOf(todo[k..][..n]) == StmtsOf(todo[..k + n])
  {
    OfBoth(todo[..k], todo[k..][..n]);
    assert todo[k..][..n] == todo[k..k + n];
    assert todo[..k] + todo[k..k + n] == todo[..k + n];
  }

  lemma AppliedMore(rows: seq<Row>, r: Row, version: int)
    ensures Applied(rows + [r], version) == if r.version == version then r.applied else Applied(rows, version)
  {
    assert (rows + [r])[..|rows|] == rows;
  }

  /** The rows of migrations applied make them applied, and no other. */
  lemma {:induction false} AppliedAfter(rows: seq<Row>, migs: seq<Migration>, version: int)
    ensures Applied(rows + RowsOf(migs), version) <==> Applied(rows, version) || version in Versions(migs)
  {
    if migs == [] {
      assert rows + [] == rows;
    } else {
      var n := |migs| - 1;
      AppliedAfter(rows, migs[..n], version);
      assert rows + RowsOf(migs) == rows + RowsOf(migs[..n]) + [Row(migs[n].version, true)];
      AppliedMore(rows + RowsOf(migs[..n]), Row(migs[n].version, true), version);
    }
  }

  /** Those of other versions. */
  function Without(migs: seq<Migration>, versions: seq<int>): seq<Migration> {
    if migs == [] then []
    else (if migs[0].version in versions then [] else [migs[0]]) + Without(migs[1..], versions)
  }

  lemma {:induction false} WithoutJoin(a: seq<Migration>, b: seq<Migration>, versions: seq<int>)
    ensures Without(a + b, versions) == Without(a, versions) + Without(b, versions)
  {
    if a == [] {
      assert a + b == b;
    } else {
      assert (a + b)[1..] == a[1..] + b;
      WithoutJoin(a[1..], b, versions);
    }
  }

  lemma {:induction false} WithoutAllIff(migs: seq<Migration>, versions: seq<int>)
    ensures |Without(migs, versions)| <= |migs|
    ensures Without(migs, versions) == migs <==> forall i :: 0 <= i < |migs| ==> migs[i].version !in versions
  {
    if migs != [] {
      var rest := migs[1..];
      WithoutAllIff(rest, versions);
      assert forall i :: 0 <= i < |rest| ==> rest[i] == migs[i + 1];
      if migs[0].version !in versions {
        assert ([migs[0]] + Without(rest, versions))[1..] == Without(rest, versions);
        assert [migs[0]] + rest == migs;
        assert (forall i :: 0 <= i < |migs| ==> migs[i].version !in versions) <==>
               forall i :: 0 <= i < |rest| ==> rest[i].version !in versions;
      }
    }
  }

  lemma {:induction false} VersionsAt(migs: seq<Migration>, v: int)
    ensures v in Versions(migs) <==> exists i :: 0 <= i < |migs| && migs[i].version == v
  {
    if migs != [] {
      var n := |migs| - 1;
      VersionsAt(migs[..n], v);
      if v in Versions(migs[..n]) {
        var i :| 0 <= i < n && migs[..n][i].version == v;
        assert migs[i].version == v;
      }
      if i :| 0 <= i < |migs| && migs[i].version == v {
        if i < n { assert migs[..n][i].version == v; }
      }
    }
  }

  lemma {:induction false} WithoutNone(migs: seq<Migration>, versions: seq<int>)
    requires forall i :: 0 <= i < |migs| ==> migs[i].version in versions
    ensures Without(migs, versions) == []
  {
    if migs != [] {
      assert forall i :: 0 <= i < |migs[1..]| ==> migs[1..][i] == migs[i + 1];
      WithoutNone(migs[1..], versions);
    }
  }

  /** More versions on record: what was to do, without them. */
  lemma {:induction false} TodoOf(rows: seq<Row>, later: seq<Row>, migs: seq<Migration>, versions: seq<int>)
    requires forall v :: Applied(later, v) <==> Applied(rows, v) || v in versions
    ensures Todo(later, migs) == Without(Todo(rows, migs), versions)
  {
    if migs != [] {
      var m, rest := migs[0], migs[1..];
      TodoOf(rows, later, rest, versions);
      if !Applied(rows, m.version) {
        assert ([m] + Todo(rows, rest))[1..] == Todo(rows, rest);
      }
    }
  }

  /**
  Cut after k of what was to do, a later run takes up exactly the rest if and only if none of
  the rest is of a slot already done.
  */
  lemma TodoAfterSomeIff(rows: seq<Row>, migs: seq<Migration>, k: nat)
    requires k <= |Todo(rows, migs)|
    ensures var todo := Todo(rows, migs);
            Todo(rows + RowsOf(todo[..k]), migs) == todo[k..] <==>
            forall i :: k <= i < |todo| ==> todo[i].version !in Versions(todo[..k])
  {
    var todo := Todo(rows, migs);
    var done, rest := todo[..k], todo[k..];
    TodoWithoutTheDone(rows, migs, done, rest);
    WithoutAllIff(rest, Versions(done));
    assert forall i :: 0 <= i < |rest| ==> rest[i] == todo[k + i];
    assert forall i :: k <= i < |todo| ==> todo[i] == rest[i - k];
  }

  lemma TodoWithoutTheDone(rows: seq<Row>, migs: seq<Migration>, done: seq<Migration>, rest: seq<Migration>)
    requires Todo(rows, migs) == done + rest
    ensures Todo(rows + RowsOf(done), migs) == Without(rest, Versions(done))
  {
    forall v ensures Applied(rows + RowsOf(done), v) <==> Applied(rows, v) || v in Versions(done) {
      AppliedAfter(rows, done, v);
    }
    TodoOf(rows, rows + RowsOf(done), migs, Versions(done));
    WithoutJoin(done, rest, Versions(done));
    forall i | 0 <= i < |done| ensures done[i].version in Versions(done) { VersionsAt(done, done[i].version); }
    WithoutNone(done, Versions(done));
  }

  /** Cut after any of them, the next run takes up exactly the rest, if and only if no two are of one slot. */
  lemma CutAnywhereIff(rows: seq<Row>, migs: seq<Migration>)
    ensures var todo := Todo(rows, migs);
            (forall k :: 0 <= k <= |todo| ==> Todo(rows + RowsOf(todo[..k]), migs) == todo[k..]) <==>
            OneFileASlot(todo)
  {
    var todo := Todo(rows, migs);
    if OneFileASlot(todo) {
      forall k | 0 <= k <= |todo| ensures Todo(rows + RowsOf(todo[..k]), migs) == todo[k..] {
        TodoAfterSome(rows, migs, k);
      }
    } else {
      var i, j :| 0 <= i < j < |todo| && todo[i].version == todo[j].version;
      VersionsAt(todo[..j], todo[j].version);
      assert todo[..j][i].version == todo[j].version;
      TodoAfterSomeIff(rows, migs, j);
    }
  }

  /** When some of what was to do is done, the rest is to do. */
  lemma TodoAfterSome(rows: seq<Row>, migs: seq<Migration>, k: nat)
    requires OneFileASlot(Todo(rows, migs)) && k <= |Todo(rows, migs)|
    ensures Todo(rows + RowsOf(Todo(rows, migs)[..k]), migs) == Todo(rows, migs)[k..]
  {
    var todo := Todo(rows, migs);
    forall i | k <= i < |todo| ensures todo[i].version !in Versions(todo[..k]) {
      VersionsAt(todo[..k], todo[i].version);
    }
    TodoAfterSomeIff(rows, migs, k);
  }

  /** Two pending files of one slot: one run applies both, but cut between them the second is never applied. */
  lemma SecondOfASlotIsSkipped(rows: seq<Row>, a: Migration, b: Migration)
    requires a.version == b.version && !Applied(rows, a.version)
    ensures Todo(rows, [a, b]) == [a, b]
    ensures Todo(rows + [Row(a.version, true)], [a, b]) == []
  {
    var later := rows + [Row(a.version, true)];
    AppliedMore(rows, Row(a.version, true), a.version);
    assert [a, b][1..] == [b] && [b][1..] == [];
    assert Todo(rows, [b]) == [b] + Todo(rows, []) == [b];
    assert Todo(later, [b]) == Todo(later, []) == [];
  }

  // ---------------------------------------------------------------------
  // Any number of runs
  // ---------------------------------------------------------------------

  lemma {:induction false} RowsLength(migs: seq<Migration>)
    ensures |RowsOf(migs)| == |migs|
  {
    if migs != [] { RowsLength(migs[..|migs| - 1]); }
  }

  lemma OneFileASlotLater(todo: seq<Migration>, k: nat)
    requires k <= |todo| && OneFileASlot(todo)
    ensures OneFileASlot(todo[k..])
  {
    forall i, j | 0 <= i < j < |todo| - k ensures todo[k..][i].version != todo[k..][j].version {
      assert todo[k + i].version != todo[k + j].version;
    }
  }

  lemma Joined<T>(a: seq<T>, b: seq<T>, c: seq<T>)
    ensures a + b + c == a + (b + c)
  {
  }

  /**
  With one pending file of a slot: the version table is as after one run, and the statements are one
  run's exactly when none was executed of a file that run did not get on record.
  */
  lemma {:induction false} OnceIff(rows: seq<Row>, migs: seq<Migration>, runs: seq<nat -> Outcome>)
    requires OneFileASlot(Todo(rows, migs)) && RunAll(rows, migs, runs).ok
    ensures var todo, l, again := Todo(rows, migs), RunAll(rows, migs, runs), Again(rows, migs, runs);
            && l.rows == rows + RowsOf(todo) && |l.log| == |StmtsOf(todo)| + again
            && (l.log == StmtsOf(todo) <==> again == 0)
    decreases |runs|
  {
    var todo := Todo(rows, migs);
    var e := RunOf(todo, runs[0]);
    if e.ok {
      assert todo[..e.done] == todo;
    } else {
      var rest := OneRunOn(rows, migs, runs);
      OnceIff(rows + RowsOf(todo[..e.done]), migs, runs[1..]);
      AddedUp(rows, todo, e, RunAll(rows + RowsOf(todo[..e.done]), migs, runs[1..]),
              Again(rows + RowsOf(todo[..e.done]), migs, runs[1..]));
    }
  }

  /** A run that ended so, and what the others then left of the rest. */
  lemma AddedUp(rows: seq<Row>, todo: seq<Migration>, e: Ended, l: Left, again: nat)
    requires e.done <= |todo| && if e.done == |todo| then e.past == 0 else e.past <= |todo[e.done].stmts|
    requires var rest := todo[e.done..];
             && l.rows == rows + RowsOf(todo[..e.done]) + RowsOf(rest) && |l.log| == |StmtsOf(rest)| + again
             && (l.log == StmtsOf(rest) <==> again == 0)
    ensures var log := Executed(todo, e) + l.log;
            && l.rows == rows + RowsOf(todo) && |log| == |StmtsOf(todo)| + e.past + again
            && (log == StmtsOf(todo) <==> e.past + again == 0)
  {
    var rest := todo[e.done..];
    OneRunMore(todo, e.done, |rest|);
    assert rest[..|rest|] == rest && todo[..|todo|] == todo;
    Joined(rows, RowsOf(todo[..e.done]), RowsOf(rest));
    if e.past + again == 0 { assert Executed(todo, e) == StmtsOf(todo[..e.done]); }
  }

  /** A run that did not go through leaves the rest. */
  lemma OneRunOn(rows: seq<Row>, migs: seq<Migration>, runs: seq<nat -> Outcome>) returns (rest: seq<Migration>)
    requires OneFileASlot(Todo(rows, migs)) && runs != []
    ensures var todo := Todo(rows, migs);
            var e := RunOf(todo, runs[0]);
            rest == todo[e.done..] == Todo(rows + RowsOf(todo[..e.done]), migs) && OneFileASlot(rest)
  {
    var todo := Todo(rows, migs);
    var e := RunOf(todo, runs[0]);
    rest := todo[e.done..];
    TodoAfterSome(rows, migs, e.done);
    OneFileASlotLater(todo, e.done);
  }

  lemma {:induction false} NoneAgain(rows: seq<Row>, migs: seq<Migration>, runs: seq<nat -> Outcome>)
    requires OneFileASlot(Todo(rows, migs)) && AllOrNothing(Todo(rows, migs))
    ensures Again(rows, migs, runs) == 0
    decreases |runs|
  {
    if runs != [] {
      var todo := Todo(rows, migs);
      var e := RunOf(todo, runs[0]);
      var rest := OneRunOn(rows, migs, runs);
      assert forall i :: 0 <= i < |rest| ==> rest[i] == todo[e.done + i];
      NoneAgain(rows + RowsOf(todo[..e.done]), migs, runs[1..]);
    }
  }

  // ---------------------------------------------------------------------
  // A cut at any step
  // ---------------------------------------------------------------------

  function CutAt(n: nat): nat -> Outcome { (k: nat) => if k < n then Fine else Cut }

  function Uncut(): nat -> Outcome { (k: nat) => Fine }

  function StepsTo(todo: seq<Migration>, i: nat): nat
    requires i <= |todo|
  {
    if i == 0 then 0 else Steps(todo[0]) + StepsTo(todo[1..], i - 1)
  }

  /** Cut in a file after j of its steps. */
  lemma {:induction false} CutRun(todo: seq<Migration>, i: nat, j: nat, k: nat, n: nat)
    requires i < |todo| && j < Steps(todo[i]) && n == k + StepsTo(todo, i) + j
    ensures EndedFrom(todo, CutAt(n), k) == Ended(i, Past(todo[i], j), false)
    decreases i
  {
    var m := todo[0];
    if i == 0 {
      FineForIs(CutAt(n), k, Steps(m), j);
    } else {
      FineForIs(CutAt(n), k, Steps(m), Steps(m));
      CutRun(todo[1..], i - 1, j, k + Steps(m), n);
    }
  }

  lemma {:induction false} UncutRun(todo: seq<Migration>, k: nat)
    ensures EndedFrom(todo, Uncut(), k) == Ended(|todo|, 0, true)
  {
    if todo != [] {
      FineForIs(Uncut(), k, Steps(todo[0]), Steps(todo[0]));
      UncutRun(todo[1..], k + Steps(todo[0]));
    }
  }

  /** A run cut after j steps of the i-th file, and one that is not cut. */
  lemma CutThenUncut(rows: seq<Row>, migs: seq<Migration>, i: nat, j: nat) returns (runs: seq<nat -> Outcome>)
    requires i < |Todo(rows, migs)| && j < Steps(Todo(rows, migs)[i])
    ensures var todo := Todo(rows, migs);
            var e, later := Ended(i, Past(todo[i], j), false), rows + RowsOf(todo[..i]);
            var rest := Todo(later, migs);
            && RunAll(rows, migs, runs) == Left(Executed(todo, e) + StmtsOf(rest), later + RowsOf(rest), true)
            && Again(rows, migs, runs) == Past(todo[i], j)
  {
    var todo := Todo(rows, migs);
    var n := 1 + StepsTo(todo, i) + j;
    CutRun(todo, i, j, 1, n);
    runs := [CutAt(n), Uncut()];
    var later := rows + RowsOf(todo[..i]);
    var rest := Todo(later, migs);
    UncutRun(rest, 1);
    assert rest[..|rest|] == rest && StmtsOf(rest) + [] == StmtsOf(rest);
    assert runs[1..] == [Uncut()];
    assert RunOf(rest, Uncut()) == Ended(|rest|, 0, true);
    assert RunAll(later, migs, [Uncut()]) == Left(StmtsOf(rest), later + RowsOf(rest), true);
    assert RunOf(todo, CutAt(n)) == Ended(i, Past(todo[i], j), false);
  }

  /**
  A file in no transaction, the run cut after its first statement: the next run executes that
  statement again.
  */
  lemma FirstStatementTwice(rows: seq<Row>, migs: seq<Migration>, i: nat) returns (runs: seq<nat -> Outcome>)
    requires OneFileASlot(Todo(rows, migs)) && i < |Todo(rows, migs)|
    requires var m := Todo(rows, migs)[i]; !m.tx && m.stmts != []
    ensures var todo, l := Todo(rows, migs), RunAll(rows, migs, runs);
            && l.ok && Again(rows, migs, runs) == 1
            && l.log == StmtsOf(todo[..i]) + [todo[i].stmts[0]] + StmtsOf(todo[i..])
  {
    var todo := Todo(rows, migs);
    var m := todo[i];
    assert Past(m, 2) == 1;
    runs := CutThenUncut(rows, migs, i, 2);
    TodoAfterSome(rows, migs, i);
    assert Executed(todo, Ended(i, 1, false)) == StmtsOf(todo[..i]) + [m.stmts[0]] by {
      assert m.stmts[..1] == [m.stmts[0]];
    }
  }

  /** Two pending files of one slot, the run cut between them: the second never gets on record. */
  lemma SecondNotOnRecord(rows: seq<Row>, migs: seq<Migration>, i: nat, j: nat) returns (runs: seq<nat -> Outcome>)
    requires i < j < |Todo(rows, migs)| && Todo(rows, migs)[i].version == Todo(rows, migs)[j].version
    ensures var todo, l := Todo(rows, migs), RunAll(rows, migs, runs);
            l.ok && |l.rows| < |rows + RowsOf(todo)|
  {
    var todo := Todo(rows, migs);
    runs := CutThenUncut(rows, migs, j, 0);
    var done, rest := todo[..j], todo[j..];
    TodoWithoutTheDone(rows, migs, done, rest);
    assert done[i].version == rest[0].version;
    VersionsAt(done, rest[0].version);
    WithoutAllIff(rest[1..], Versions(done));
    RowsLength(done);
    RowsLength(Without(rest, Versions(done)));
    RowsLength(todo);
  }

  /** Whatever runs there were, once one goes through they left what one run leaves. */
  ghost predicate AsOneRun(rows: seq<Row>, migs: seq<Migration>, runs: seq<nat -> Outcome>) {
    var todo, l := Todo(rows, migs), RunAll(rows, migs, runs);
    l.ok ==> l.log == StmtsOf(todo) && l.rows == rows + RowsOf(todo)
  }

  /**
  Runs that fail or are cut anywhere are made good by the next that goes through, whatever they
  were, if and only if no two pending files are of one slot and each is in a transaction or has
  nothing to execute.
  */
  lemma MadeGoodIff(rows: seq<Row>, migs: seq<Migration>)
    ensures (forall runs :: AsOneRun(rows, migs, runs)) <==>
            OneFileASlot(Todo(rows, migs)) && AllOrNothing(Todo(rows, migs))
  {
    var todo := Todo(rows, migs);
    if !OneFileASlot(todo) {
      var i, j :| 0 <= i < j < |todo| && todo[i].version == todo[j].version;
      var runs := SecondNotOnRecord(rows, migs, i, j);
      assert !AsOneRun(rows, migs, runs);
    } else if !AllOrNothing(todo) {
      var i :| 0 <= i < |todo| && !todo[i].tx && todo[i].stmts != [];
      var runs := FirstStatementTwice(rows, migs, i);
      OnceIff(rows, migs, runs);
      assert !AsOneRun(rows, migs, runs);
    } else {
      forall runs ensures AsOneRun(rows, migs, runs) {
        NoneAgain(rows, migs, runs);
        if RunAll(rows, migs, runs).ok { OnceIff(rows, migs, runs); }
      }
    }
  }
}
