/**
followLog: the container copies what is appended to the launcher's log to its own output
(cmd/maktaba-server/cmd_container.go), while the launcher appends to it and renames it
aside (cmd/maktaba-launcher/logfile.go). The writer's operations on the path and the
follower's copies, stats and opens interleave.
*/
module FollowLog {
  import opened LogDisk

  /** Where in a poll the follower is. */
  datatype Point = Top | Copy | Stat | Last | Reopen | Wait | Ended

  /**
  The readings so far, each a file copied from its start up to there and then closed or rewound.
  */
  datatype Readings = Nothing | Then(before: Readings, gen: nat, upTo: nat)

  datatype Follower = Follower(
    open: bool,           // f is a file
    gen: nat,             // which one
    pos: nat,             // how far it is copied
    out: string,          // what was copied
    point: Point,
    told: Readings)  // the readings before this one

  datatype State = State(disk: Disk, before: string, f: Follower)

  datatype Action =
    | Writer(op: Op)
    | Open(ok: bool)    // at the top of a poll, when there is no file
    | CopyAll
    | StatPath(own: bool, found: bool)  // whether the file's and the path's stat work
    | CopyLast          // what the renamed file got since; then closed
    | OpenNext(ok: bool)
    | Tick
    | Stop

  function Newest(d: Disk): int { |d.files| - 1 }

  predicate Enabled(s: State, a: Action) {
    match a
    case Writer(op) => Legal(s.disk, op)
    case Open(_) => s.f.point.Top?
    case CopyAll => s.f.point.Copy? && AtFile(s)
    case StatPath(_, _) => s.f.point.Stat? && AtFile(s)
    case CopyLast => s.f.point.Last? && AtFile(s)
    case OpenNext(_) => s.f.point.Reopen? && !s.f.open
    case Tick => s.f.point.Wait?
    case Stop => s.f.point.Wait? && (s.f.open ==> AtFile(s))
  }

  predicate AtFile(s: State) {
    s.f.open && s.f.gen < |s.disk.files| && s.f.pos <= |s.disk.files[s.f.gen]|
  }

  /** The file read last, and how far if it is that one. */
  function LastGen(told: Readings): int { if told.Nothing? then -1 else told.gen }

  function ReadOf(told: Readings, gen: int): nat {
    if told.Then? && told.gen == gen then told.upTo else 0
  }

  /** The path opened from its start: whatever file it names now. */
  function Opened(s: State, ok: bool, then_: Point): Follower
    requires WellFormed(s.disk)
  {
    if ok && s.disk.linked then
      var g := |s.disk.files| - 1;
      s.f.(open := true, gen := g, pos := 0, point := then_)
    else s.f.(point := Wait)
  }

  function Copied(s: State): Follower
    requires AtFile(s)
  {
    var file := s.disk.files[s.f.gen];
    s.f.(out := s.f.out + file[s.f.pos..], pos := |file|)
  }

  function Closed(f: Follower): Follower {
    f.(open := false, pos := 0, point := Reopen, told := Then(f.told, f.gen, f.pos))
  }

  function Rewound(f: Follower): Follower {
    f.(pos := 0, point := Wait, told := Then(f.told, f.gen, f.pos))
  }

  /**
  A stat of the path that fails, whatever for, is taken for a rename; when the file's own fails the
  two are not compared, and a path that names a shorter file for a log that was cut.
  */
  function Stated(s: State, own: bool, found: bool): Follower {
    if !found || !s.disk.linked || (own && s.f.gen != Newest(s.disk)) then s.f.(point := Last)
    else if s.disk.files != [] && |s.disk.files[|s.disk.files| - 1]| < s.f.pos then Rewound(s.f)
    else s.f.(point := Wait)
  }

  function Apply(s: State, a: Action): State
    requires WellFormed(s.disk) && Enabled(s, a)
  {
    match a
    case Writer(op) => s.(disk := Do(s.disk, op))
    case Open(ok) => s.(f := if s.f.open then s.f.(point := Copy) else Opened(s, ok, Copy))
    case CopyAll => s.(f := Copied(s).(point := Stat))
    case StatPath(own, found) => s.(f := Stated(s, own, found))
    case CopyLast => s.(f := Closed(Copied(s)))
    case OpenNext(ok) => s.(f := Opened(s, ok, Wait))
    case Tick => s.(f := s.f.(point := Top))
    case Stop => s.(f := (if s.f.open then Copied(s) else s.f).(point := Ended))
  }

  /** The first n files, each read whole. */
  function Wholes(files: seq<string>, n: nat): Readings
    requires n <= |files|
  {
    if n == 0 then Nothing else Then(Wholes(files, n - 1), n - 1, |files[n - 1]|)
  }

  /** The first of the files it is to copy. */
  function First(d: Disk): nat
    requires WellFormed(d)
  {
    if d.linked then |d.files| - 1 else |d.files|
  }

  /**
  followLog began: at the end of the log there is, or with no file, when there is none or its
  first open failed. before is what the files hold that it will not copy.
  */
  predicate Began(s: State) {
    && WellFormed(s.disk) && s.f.out == "" && s.f.point == Top
    && s.f.gen == First(s.disk) && s.f.told == Wholes(s.disk.files, s.f.gen)
    && (s.f.open ==> s.disk.linked)
    && s.f.pos == (if s.f.open then |s.disk.files[s.f.gen]| else 0)
    && s.before == Flat(s.disk.files[..s.f.gen]) + (if s.f.open then s.disk.files[s.f.gen] else "")
  }

  ghost predicate Valid(s: State, run: seq<Action>)
    requires WellFormed(s.disk)
    decreases |run|
  {
    run == [] || (Enabled(s, run[0]) && Valid(Apply(s, run[0]), run[1..]))
  }

  ghost function After(s: State, run: seq<Action>): (r: State)
    requires WellFormed(s.disk) && Valid(s, run)
    ensures WellFormed(r.disk)
    decreases |run|
  {
    if run == [] then s else After(Apply(s, run[0]), run[1..])
  }

  // ---------------------------------------------------------------------
  // What was copied, in every run
  // ---------------------------------------------------------------------

  /** Readings of these files, each of the same file as the one before it or of a later one. */
  predicate Fits(files: seq<string>, told: Readings) {
    match told
    case Nothing => true
    case Then(before, gen, upTo) =>
      && Fits(files, before) && LastGen(before) <= gen
      && gen < |files| && upTo <= |files[gen]|
  }

  /** Their bytes. */
  function Said(files: seq<string>, told: Readings): string
    requires Fits(files, told)
  {
    match told
    case Nothing => ""
    case Then(before, gen, upTo) => Said(files, before) + files[gen][..upTo]
  }

  /** The bytes of readings that were made once more. */
  function Repeats(told: Readings): nat {
    match told
    case Nothing => 0
    case Then(before, gen, _) => Repeats(before) + ReadOf(before, gen)
  }

  /** And so far of the one that goes on. */
  function Repeated(s: State): nat {
    Repeats(s.f.told) + if s.f.open then ReadOf(s.f.told, s.f.gen) else 0
  }

  ghost predicate Faithful(s: State) {
    && WellFormed(s.disk) && Fits(s.disk.files, s.f.told)
    && (s.f.open ==> AtFile(s) && LastGen(s.f.told) <= s.f.gen)
    && s.before + s.f.out ==
         Said(s.disk.files, s.f.told) + (if s.f.open then s.disk.files[s.f.gen][..s.f.pos] else "")
    && (s.f.point.Last? || s.f.point.Copy? || s.f.point.Stat? ==> s.f.open)
    && (s.f.point.Reopen? ==> !s.f.open)
  }

  lemma {:induction false} SaidFrame(files: seq<string>, more: seq<string>, told: Readings)
    requires Fits(files, told) && |files| <= |more|
    requires forall i :: 0 <= i < |files| ==> files[i] <= more[i]
    ensures Fits(more, told) && Said(files, told) == Said(more, told)
  {
    if told.Then? {
      SaidFrame(files, more, told.before);
      assert files[told.gen] <= more[told.gen];
    }
  }

  lemma {:induction false} WholesSay(files: seq<string>, n: nat)
    requires n <= |files|
    ensures var w := Wholes(files, n);
            Fits(files, w) && LastGen(w) == n - 1 && Repeats(w) == 0 && Said(files, w) == Flat(files[..n])
  {
    if n > 0 {
      WholesSay(files, n - 1);
      assert files[..n][..n - 1] == files[..n - 1];
      assert files[n - 1][..|files[n - 1]|] == files[n - 1];
    }
  }

  lemma BeganFaithful(s: State)
    requires Began(s)
    ensures Faithful(s) && Repeated(s) == 0
  {
    WholesSay(s.disk.files, s.f.gen);
    assert s.before + "" == s.before;
    if s.f.open {
      var file := s.disk.files[s.f.gen];
      assert file[..|file|] == file;
    }
  }

  /** The bytes a step sets out to copy again: an open that finds the last file closed, or a rewind. */
  function AgainBy(s: State, a: Action): nat
    requires WellFormed(s.disk) && Enabled(s, a)
  {
    match a
    case Open(ok) => if !s.f.open && ok && s.disk.linked then ReadOf(s.f.told, Newest(s.disk)) else 0
    case OpenNext(ok) => if ok && s.disk.linked then ReadOf(s.f.told, Newest(s.disk)) else 0
    case StatPath(own, found) =>
      if found && !own && s.disk.linked && |s.disk.files[|s.disk.files| - 1]| < s.f.pos then s.f.pos else 0
    case _ => 0
  }

  ghost function Again(s: State, run: seq<Action>): nat
    requires WellFormed(s.disk) && Valid(s, run)
    decreases |run|
  {
    if run == [] then 0 else AgainBy(s, run[0]) + Again(Apply(s, run[0]), run[1..])
  }

  lemma WriterKeepsFaithful(s: State, op: Op)
    requires Faithful(s) && Legal(s.disk, op)
    ensures Faithful(Apply(s, Writer(op)))
  {
    var more := Do(s.disk, op).files;
    assert forall i :: 0 <= i < |s.disk.files| ==> s.disk.files[i] <= more[i];
    SaidFrame(s.disk.files, more, s.f.told);
  }

  lemma OpenKeepsFaithful(s: State, ok: bool, then_: Point)
    requires Faithful(s) && !s.f.open && (then_ == Copy || then_ == Wait)
    ensures var t := s.(f := Opened(s, ok, then_));
            && Faithful(t)
            && Repeated(t) == Repeated(s) + if ok && s.disk.linked then ReadOf(s.f.told, Newest(s.disk)) else 0
  {
  }

  lemma CopyIsFaithful(s: State)
    requires Faithful(s) && s.f.open
    ensures s.before + Copied(s).out == Said(s.disk.files, s.f.told) + s.disk.files[s.f.gen]
    ensures forall point :: point != Reopen ==> Faithful(s.(f := Copied(s).(point := point)))
  {
    var file := s.disk.files[s.f.gen];
    assert file == file[..s.f.pos] + file[s.f.pos..];
    assert s.before + (s.f.out + file[s.f.pos..]) == (s.before + s.f.out) + file[s.f.pos..];
    assert file[..|file|] == file;
  }

  /** A reading ends: the file is closed, or copied from its start once more. */
  lemma EndedReading(s: State)
    requires Faithful(s) && s.f.open
    ensures Faithful(s.(f := Closed(s.f))) && Repeated(s.(f := Closed(s.f))) == Repeated(s)
    ensures Faithful(s.(f := Rewound(s.f))) && Repeated(s.(f := Rewound(s.f))) == Repeated(s) + s.f.pos
  {
    assert s.disk.files[s.f.gen][..0] == "";
  }

  lemma StepKeepsFaithful(s: State, a: Action)
    requires Faithful(s) && Enabled(s, a)
    ensures Faithful(Apply(s, a)) && Repeated(Apply(s, a)) == Repeated(s) + AgainBy(s, a)
  {
    match a
    case Writer(op) => WriterKeepsFaithful(s, op);
    case Open(ok) => if !s.f.open { OpenKeepsFaithful(s, ok, Copy); }
    case OpenNext(ok) => OpenKeepsFaithful(s, ok, Wait);
    case CopyAll => CopyIsFaithful(s);
    case CopyLast => ClosingKeepsFaithful(s);
    case Stop => if s.f.open { CopyIsFaithful(s); }
    case StatPath(own, found) => StatKeepsFaithful(s, own, found);
    case Tick =>
  }

  lemma ClosingKeepsFaithful(s: State)
    requires Faithful(s) && s.f.open
    ensures var t := s.(f := Closed(Copied(s)));
            Faithful(t) && Repeated(t) == Repeated(s)
  {
    CopyIsFaithful(s);
    EndedReading(s.(f := Copied(s).(point := Last)));
  }

  lemma StatKeepsFaithful(s: State, own: bool, found: bool)
    requires Faithful(s) && Enabled(s, StatPath(own, found))
    ensures var t := Apply(s, StatPath(own, found));
            Faithful(t) && Repeated(t) == Repeated(s) + AgainBy(s, StatPath(own, found))
  {
    if Stated(s, own, found) == Rewound(s.f) { EndedReading(s); }
  }

  /**
  In every run, rotations at any moment and failed opens and stats included: what was written is
  readings of the files in order, each from its start; and of these just the bytes are repeated
  that an open found again after a failed stat or a rewind went back over.
  */
  lemma {:induction false} NoRepeatNoReorder(s: State, run: seq<Action>)
    requires Faithful(s) && Valid(s, run)
    ensures Faithful(After(s, run)) && Repeated(After(s, run)) == Repeated(s) + Again(s, run)
    decreases |run|
  {
    if run != [] {
      StepKeepsFaithful(s, run[0]);
      NoRepeatNoReorder(Apply(s, run[0]), run[1..]);
    }
  }

  // ---------------------------------------------------------------------
  // What is still to be copied, and what never will be
  // ---------------------------------------------------------------------

  /** The newest file's bytes not yet copied, if the follower is to open it. */
  function Ahead(s: State): string
    requires WellFormed(s.disk)
  {
    if s.disk.linked && !(s.f.open && s.f.gen == Newest(s.disk)) then
      var file := s.disk.files[|s.disk.files| - 1];
      var read := ReadOf(s.f.told, Newest(s.disk));
      file[if read <= |file| then read else |file|..]
    else ""
  }

  /** What is still to be copied. */
  function Rest(s: State): string
    requires WellFormed(s.disk) && (s.f.open ==> AtFile(s))
  {
    (if s.f.open then s.disk.files[s.f.gen][s.f.pos..] else "") + Ahead(s)
  }

  /** The bytes a step renames aside that the follower then has not copied nor open. */
  function MissedBy(s: State, a: Action): nat
    requires WellFormed(s.disk)
  {
    if a == Writer(Rename) then |Ahead(s)| else 0
  }

  ghost function Missed(s: State, run: seq<Action>): nat
    requires WellFormed(s.disk) && Valid(s, run)
    decreases |run|
  {
    if run == [] then 0 else MissedBy(s, run[0]) + Missed(Apply(s, run[0]), run[1..])
  }

  /** What was copied, what is to be and what never will be make the log, but for what is copied again. */
  ghost predicate Balanced(s: State, missed: nat) {
    Faithful(s) && Even(s.before + s.f.out, Rest(s), Stream(s.disk), missed, Repeated(s))
  }

  predicate Even(said: string, rest: string, stream: string, missed: nat, again: nat) {
    && |said| + |rest| + missed == |stream| + again
    && (missed == 0 && again == 0 ==> said + rest == stream)
  }

  lemma EvenAfterAppend(said: string, rest: string, stream: string, missed: nat, again: nat, bytes: string)
    requires Even(said, rest, stream, missed, again)
    ensures Even(said, rest + bytes, stream + bytes, missed, again)
  {
    assert said + (rest + bytes) == said + rest + bytes;
  }

  lemma EvenAfterCopy(before: string, out: string, copied: string, rest: string, stream: string, missed: nat, again: nat)
    requires Even(before + out, copied + rest, stream, missed, again)
    ensures Even(before + (out + copied), rest, stream, missed, again)
  {
    assert before + (out + copied) + rest == before + out + (copied + rest);
  }

  lemma AppendKeepsBalanced(s: State, bytes: string, missed: nat)
    requires Balanced(s, missed) && s.disk.open
    ensures Balanced(Apply(s, Writer(Append(bytes))), missed)
  {
    var t := Apply(s, Writer(Append(bytes)));
    WriterKeepsFaithful(s, Append(bytes));
    StreamGrows(s.disk, Append(bytes));
    Appends(s, bytes);
    EvenAfterAppend(s.before + s.f.out, Rest(s), Stream(s.disk), missed, Repeated(s), bytes);
  }

  lemma Appends(s: State, bytes: string)
    requires Faithful(s) && s.disk.open && Faithful(Apply(s, Writer(Append(bytes))))
    ensures Rest(Apply(s, Writer(Append(bytes)))) == Rest(s) + bytes
  {
    var t := Apply(s, Writer(Append(bytes)));
    var n := |s.disk.files| - 1;
    var file := s.disk.files[n];
    if s.f.open && s.f.gen == n {
      assert (file + bytes)[s.f.pos..] == file[s.f.pos..] + bytes;
      assert Ahead(s) == Ahead(t) == "";
    } else {
      AppendsAhead(s, bytes);
      var first := if s.f.open then s.disk.files[s.f.gen][s.f.pos..] else "";
      assert first + (Ahead(s) + bytes) == first + Ahead(s) + bytes;
    }
  }

  lemma AppendsAhead(s: State, bytes: string)
    requires Faithful(s) && s.disk.open && !(s.f.open && s.f.gen == Newest(s.disk))
    ensures Ahead(Apply(s, Writer(Append(bytes)))) == Ahead(s) + bytes
  {
    var file, told := s.disk.files[|s.disk.files| - 1], ReadOf(s.f.told, Newest(s.disk));
    assert told <= |file|;
    assert (file + bytes)[told..] == file[told..] + bytes;
  }

  lemma WriterKeepsBalanced(s: State, op: Op, missed: nat)
    requires Balanced(s, missed) && Legal(s.disk, op)
    ensures Balanced(Apply(s, Writer(op)), missed + MissedBy(s, Writer(op)))
  {
    match op
    case Append(bytes) => AppendKeepsBalanced(s, bytes, missed);
    case _ =>
      WriterKeepsFaithful(s, op);
      StreamGrows(s.disk, op);
  }

  lemma OpenKeepsBalanced(s: State, ok: bool, then_: Point, missed: nat)
    requires Balanced(s, missed) && !s.f.open && (then_ == Copy || then_ == Wait)
    ensures Balanced(s.(f := Opened(s, ok, then_)), missed)
  {
    OpenKeepsFaithful(s, ok, then_);
    if ok && s.disk.linked {
      var n := |s.disk.files| - 1;
      assert s.disk.files[n][0..] == s.disk.files[n];
    }
  }

  lemma CopyKeepsBalanced(s: State, point: Point, missed: nat)
    requires Balanced(s, missed) && s.f.open && point != Reopen
    ensures Balanced(s.(f := Copied(s).(point := point)), missed)
  {
    CopyIsFaithful(s);
    var file := s.disk.files[s.f.gen];
    EvenAfterCopy(s.before, s.f.out, file[s.f.pos..], Ahead(s), Stream(s.disk), missed, Repeated(s));
    assert file[|file|..] + Ahead(s) == Ahead(s);
  }

  lemma CloseKeepsBalanced(s: State, missed: nat)
    requires Balanced(s, missed) && s.f.open && s.f.pos == |s.disk.files[s.f.gen]|
    ensures Balanced(s.(f := Closed(s.f)), missed)
  {
    EndedReading(s);
    var file := s.disk.files[s.f.gen];
    assert file[|file|..] == "";
  }

  lemma RewindKeepsBalanced(s: State, missed: nat)
    requires Balanced(s, missed) && s.f.open && 0 < s.f.pos && s.f.gen != Newest(s.disk)
    ensures Balanced(s.(f := Rewound(s.f)), missed)
  {
    EndedReading(s);
  }

  lemma CopyLastKeepsBalanced(s: State, missed: nat)
    requires Balanced(s, missed) && s.f.open
    ensures Balanced(s.(f := Closed(Copied(s))), missed)
  {
    CopyKeepsBalanced(s, Last, missed);
    CloseKeepsBalanced(s.(f := Copied(s).(point := Last)), missed);
  }

  lemma StatKeepsBalanced(s: State, own: bool, found: bool, missed: nat)
    requires Balanced(s, missed) && Enabled(s, StatPath(own, found))
    ensures Balanced(Apply(s, StatPath(own, found)), missed)
  {
    if Stated(s, own, found) == Rewound(s.f) { RewindKeepsBalanced(s, missed); }
  }

  lemma PointKeepsBalanced(s: State, point: Point, missed: nat)
    requires Balanced(s, missed) && (point == Top || (point == Copy && s.f.open))
    ensures Balanced(s.(f := s.f.(point := point)), missed)
  {
    var t := s.(f := s.f.(point := point));
    assert Rest(t) == Rest(s) && Repeated(t) == Repeated(s);
  }

  lemma TopKeepsBalanced(s: State, ok: bool, missed: nat)
    requires Balanced(s, missed) && s.f.point == Top
    ensures Balanced(Apply(s, Open(ok)), missed)
  {
    if s.f.open {
      PointKeepsBalanced(s, Copy, missed);
    } else {
      OpenKeepsBalanced(s, ok, Copy, missed);
    }
  }

  lemma FollowerKeepsBalanced(s: State, a: Action, missed: nat)
    requires Balanced(s, missed) && Enabled(s, a) && (a.CopyAll? || a.CopyLast? || a.Stop?)
    ensures Balanced(Apply(s, a), missed)
  {
    match a
    case CopyAll => CopyKeepsBalanced(s, Stat, missed);
    case CopyLast => CopyLastKeepsBalanced(s, missed);
    case _ => if s.f.open { CopyKeepsBalanced(s, Ended, missed); }
  }

  lemma StepKeepsBalanced(s: State, a: Action, missed: nat)
    requires Balanced(s, missed) && Enabled(s, a)
    ensures Balanced(Apply(s, a), missed + MissedBy(s, a))
  {
    match a
    case Writer(op) => WriterKeepsBalanced(s, op, missed);
    case StatPath(own, found) => StatKeepsBalanced(s, own, found, missed);
    case Open(ok) => TopKeepsBalanced(s, ok, missed);
    case OpenNext(ok) => OpenKeepsBalanced(s, ok, Wait, missed);
    case Tick => PointKeepsBalanced(s, Top, missed);
    case _ => FollowerKeepsBalanced(s, a, missed);
  }

  lemma {:induction false} RunKeepsBalanced(s: State, run: seq<Action>, missed: nat)
    requires Balanced(s, missed) && Valid(s, run)
    ensures Balanced(After(s, run), missed + Missed(s, run))
    decreases |run|
  {
    if run != [] {
      StepKeepsFaithful(s, run[0]);
      StepKeepsBalanced(s, run[0], missed);
      RunKeepsBalanced(Apply(s, run[0]), run[1..], missed + MissedBy(s, run[0]));
    }
  }

  lemma BeganBalanced(s: State)
    requires Began(s)
    ensures Balanced(s, 0) && Repeated(s) == 0
  {
    BeganFaithful(s);
    WholesSay(s.disk.files, s.f.gen);
    if s.disk.linked {
      assert s.disk.files[s.f.gen][0..] == s.disk.files[s.f.gen];
    } else {
      assert s.disk.files[..|s.disk.files|] == s.disk.files;
    }
  }

  /**
  In every run: the bytes copied and the bytes missed (renamed aside while the follower neither had
  copied them nor the file open) make the log's, but for those copied again. So a copy that reaches
  the newest file completes the log exactly when nothing was missed, if nothing was copied again,
  and exactly when nothing was copied again, if nothing was missed.
  */
  lemma CompleteIff(s: State, run: seq<Action>)
    requires Began(s) && Valid(s, run) && Enabled(After(s, run), CopyAll)
    requires After(s, run).f.gen == Newest(After(s, run).disk)
    ensures var t, missed, again := After(s, run), Missed(s, run), Again(s, run);
            var all := t.before + Apply(t, CopyAll).f.out;
            && |all| + missed == |Stream(t.disk)| + again
            && (missed == 0 || again == 0 ==> (all == Stream(t.disk) <==> missed == 0 && again == 0))
  {
    BeganBalanced(s);
    RunKeepsBalanced(s, run, 0);
    NoRepeatNoReorder(s, run);
    var t := After(s, run);
    CopyKeepsBalanced(t, Stat, Missed(s, run));
    var u := Apply(t, CopyAll);
    assert Rest(u) == "" && u.before + u.f.out + "" == u.before + u.f.out;
  }

  /** Every stat works. */
  predicate StatsWork(run: seq<Action>) {
    forall i :: 0 <= i < |run| && run[i].StatPath? ==> run[i] == StatPath(true, true)
  }

  /** A file that is closed or about to be has been renamed aside. */
  ghost predicate Moved(s: State) {
    && Faithful(s)
    && (if s.f.open then LastGen(s.f.told) < s.f.gen else s.disk.linked ==> LastGen(s.f.told) < Newest(s.disk))
    && (s.f.point.Last? ==> !(s.disk.linked && s.f.gen == Newest(s.disk)))
  }

  lemma StepKeepsMoved(s: State, a: Action)
    requires Moved(s) && Enabled(s, a) && (a.StatPath? ==> a == StatPath(true, true))
    ensures Moved(Apply(s, a)) && AgainBy(s, a) == 0
  {
    StepKeepsFaithful(s, a);
  }

  /** While every stat works nothing is copied again. */
  lemma {:induction false} WorkingStatsRepeatNothing(s: State, run: seq<Action>)
    requires Moved(s) && Valid(s, run) && StatsWork(run)
    ensures Again(s, run) == 0
    decreases |run|
  {
    if run != [] {
      StepKeepsMoved(s, run[0]);
      assert forall i :: 0 <= i < |run[1..]| ==> run[1..][i] == run[i + 1];
      WorkingStatsRepeatNothing(Apply(s, run[0]), run[1..]);
    }
  }

  lemma BeganMoved(s: State)
    requires Began(s)
    ensures Moved(s)
  {
    BeganFaithful(s);
    WholesSay(s.disk.files, s.f.gen);
  }

  // ---------------------------------------------------------------------
  // A rotation is noticed
  // ---------------------------------------------------------------------

  /** The file the path names is open, if it names one. */
  predicate AtNewest(s: State) { s.disk.linked ==> s.f.open && s.f.gen == Newest(s.disk) }

  /**
  A look at a path that names another file, or none: what the old one got since is copied, it is
  closed, and the one the path names is opened at its start. At one that names the file copied
  it goes on with that.
  */
  lemma RotationIsNoticed(s: State)
    requires Faithful(s) && s.f.point.Stat?
    ensures Enabled(s, StatPath(true, true))
    ensures AtNewest(s) && s.disk.linked ==> Apply(s, StatPath(true, true)) == s.(f := s.f.(point := Wait))
    ensures !(AtNewest(s) && s.disk.linked) ==>
              && var t := Apply(s, StatPath(true, true));
              && Enabled(t, CopyLast) && Apply(t, CopyLast).f.out == s.f.out + s.disk.files[s.f.gen][s.f.pos..]
              && Enabled(Apply(t, CopyLast), OpenNext(true))
              && var u := Apply(Apply(t, CopyLast), OpenNext(true));
              && u.f.point == Wait && u.f.open == s.disk.linked
              && (s.disk.linked ==> u.f.gen == Newest(s.disk) && u.f.pos == 0)
  {
  }

  /** What the follower does next, when all it asks for works. */
  function Onwards(s: State): Action {
    match s.f.point
    case Top => Open(true)
    case Copy => CopyAll
    case Stat => StatPath(true, true)
    case Last => CopyLast
    case Reopen => OpenNext(true)
    case _ => Tick
  }

  /** So it goes on n steps, the writer quiet. */
  ghost predicate Undisturbed(s: State, run: seq<Action>)
    requires WellFormed(s.disk) && Valid(s, run)
    decreases |run|
  {
    run == [] || (run[0] == Onwards(s) && Undisturbed(Apply(s, run[0]), run[1..]))
  }

  /** The newest file is open, not about to be closed, and nothing is left to copy. */
  predicate HasAll(s: State)
    requires WellFormed(s.disk) && (s.f.open ==> AtFile(s))
  {
    AtNewest(s) && Rest(s) == "" && !(s.f.point.Last? && s.disk.linked)
  }

  /** How many steps at most until then. */
  function StepsToAll(s: State): nat
    requires WellFormed(s.disk) && (s.f.open ==> AtFile(s))
  {
    if HasAll(s) then 0
    else
      match s.f.point
      case Copy => if AtNewest(s) then 1 else 7
      case Top => if AtNewest(s) || !s.f.open then 2 else 8
      case Stat => if AtNewest(s) then 4 else 6
      case Last => if s.disk.linked then 5 else 1
      case Reopen => 4
      case _ => if AtNewest(s) || !s.f.open then 3 else 9
  }

  ghost predicate Nearer(s: State, t: State) {
    && Faithful(s) && Faithful(t) && t.disk == s.disk && !t.f.point.Ended?
    && (if HasAll(s) then HasAll(t) else StepsToAll(t) < StepsToAll(s))
  }

  lemma CopiesTowardsAll(s: State)
    requires Faithful(s) && (s.f.point.Copy? || s.f.point.Last?) && Enabled(s, Onwards(s))
    ensures Nearer(s, Apply(s, Onwards(s)))
  {
    StepKeepsFaithful(s, Onwards(s));
  }

  lemma LooksTowardsAll(s: State)
    requires Faithful(s) && (s.f.point.Stat? || s.f.point.Reopen?) && Enabled(s, Onwards(s))
    ensures Nearer(s, Apply(s, Onwards(s)))
  {
    StepKeepsFaithful(s, Onwards(s));
  }

  lemma StepsTowardsAll(s: State)
    requires Faithful(s) && !s.f.point.Ended? && Enabled(s, Onwards(s))
    ensures Nearer(s, Apply(s, Onwards(s)))
  {
    match s.f.point
    case Copy => CopiesTowardsAll(s);
    case Last => CopiesTowardsAll(s);
    case Stat => LooksTowardsAll(s);
    case Reopen => LooksTowardsAll(s);
    case _ => StepKeepsFaithful(s, Onwards(s));
  }

  /**
  Whatever went before, a follower that nothing disturbs has all there is after 9 steps, two
  polls, and keeps it: what it copied and what was missed make the log and what was read again.
  */
  lemma {:induction false} UndisturbedHasAll(s: State, run: seq<Action>, missed: nat)
    requires Balanced(s, missed) && !s.f.point.Ended? && Valid(s, run) && Undisturbed(s, run)
    requires StepsToAll(s) <= |run|
    ensures var t := After(s, run);
            && t.disk == s.disk
            && |t.before + t.f.out| + missed == |Stream(t.disk)| + Repeated(t)
            && (missed == 0 && Repeated(t) == 0 ==> t.before + t.f.out == Stream(t.disk))
    decreases |run|
  {
    if run == [] {
      assert Rest(s) == "" && s.before + s.f.out + "" == s.before + s.f.out;
    } else {
      StepsTowardsAll(s);
      StepKeepsBalanced(s, run[0], missed);
      UndisturbedHasAll(Apply(s, run[0]), run[1..], missed);
    }
  }

  lemma NineSteps(s: State)
    requires WellFormed(s.disk) && (s.f.open ==> AtFile(s))
    ensures StepsToAll(s) <= 9
  {
  }

  // ---------------------------------------------------------------------
  // At most one rotation between two polls
  // ---------------------------------------------------------------------

  /**
  A file is renamed aside only while the follower has it open: no rotation starts before
  the follower opened the file the one before it made.
  */
  predicate Paced(s: State, a: Action) {
    a == Writer(Rename) ==> s.f.open && s.f.gen == Newest(s.disk)
  }

  ghost predicate PacedRun(s: State, run: seq<Action>)
    requires WellFormed(s.disk) && Valid(s, run)
    decreases |run|
  {
    run == [] || (Paced(s, run[0]) && PacedRun(Apply(s, run[0]), run[1..]))
  }

  lemma {:induction false} PacedRunMissesNothing(s: State, run: seq<Action>)
    requires Faithful(s) && Valid(s, run) && PacedRun(s, run)
    ensures Missed(s, run) == 0
    decreases |run|
  {
    if run != [] {
      StepKeepsFaithful(s, run[0]);
      PacedRunMissesNothing(Apply(s, run[0]), run[1..]);
    }
  }

  /**
  followLog end to end, with that pace: unless bytes were copied again, what it has written is a
  prefix of what was appended since it began; and a copy that reaches the newest file leaves it
  holding just that if and only if no byte was.
  */
  lemma FollowsTheLog(s: State, run: seq<Action>)
    requires Began(s) && Valid(s, run) && PacedRun(s, run)
    ensures var t := After(s, run);
            && (Again(s, run) == 0 ==> t.before + t.f.out <= Stream(t.disk))
            && (Enabled(t, CopyAll) && t.f.gen == Newest(t.disk) ==>
                  (t.before + Apply(t, CopyAll).f.out == Stream(t.disk) <==> Again(s, run) == 0))
  {
    BeganBalanced(s);
    RunKeepsBalanced(s, run, 0);
    NoRepeatNoReorder(s, run);
    PacedRunMissesNothing(s, run);
    var t := After(s, run);
    if Enabled(t, CopyAll) && t.f.gen == Newest(t.disk) { CompleteIff(s, run); }
  }

  // ---------------------------------------------------------------------
  // What the log held before
  // ---------------------------------------------------------------------

  /** The bytes appended from s to t. */
  function Appended(s: State, t: State): string {
    var was, is_ := Stream(s.disk), Stream(t.disk);
    if |was| <= |is_| then is_[|was|..] else ""
  }

  lemma {:induction false} StreamGrowsInRun(s: State, run: seq<Action>)
    requires WellFormed(s.disk) && Valid(s, run)
    ensures Stream(s.disk) <= Stream(After(s, run).disk) && After(s, run).before == s.before
    decreases |run|
  {
    if run != [] {
      if run[0].Writer? { StreamGrows(s.disk, run[0].op); }
      StreamGrowsInRun(Apply(s, run[0]), run[1..]);
    }
  }

  /** Nothing the log held when the follower began is to be copied. */
  predicate SkipsTheOld(s: State)
    requires WellFormed(s.disk)
  {
    s.disk.linked && !s.f.open ==> s.disk.files[|s.disk.files| - 1] == ""
  }

  lemma SkippedIsTheStream(s: State)
    requires Began(s) && SkipsTheOld(s)
    ensures s.before == Stream(s.disk)
  {
    if !s.disk.linked { assert s.disk.files[..|s.disk.files|] == s.disk.files; }
  }

  /**
  Exactly when what was copied is, at every moment of every run that copies nothing again, of what
  was appended since the follower began, in order and from the first byte on: its first open worked,
  or there was no log, or it was empty. Otherwise the log's old bytes are copied.
  */
  lemma OldIsNotRepeatedIff(s: State)
    requires Began(s)
    ensures (forall run :: Valid(s, run) && PacedRun(s, run) && Again(s, run) == 0 ==>
               After(s, run).f.out <= Appended(s, After(s, run)))
            <==> SkipsTheOld(s)
  {
    if SkipsTheOld(s) {
      SkippedIsTheStream(s);
      forall run | Valid(s, run) && PacedRun(s, run) && Again(s, run) == 0
        ensures After(s, run).f.out <= Appended(s, After(s, run))
      {
        FollowsTheLog(s, run);
        StreamGrowsInRun(s, run);
        Suffixed(s.before, After(s, run).f.out, Stream(After(s, run).disk));
      }
    } else {
      var run := OldIsRepeated(s);
    }
  }

  lemma Suffixed(a: string, b: string, whole: string)
    requires a + b <= whole
    ensures b <= whole[|a|..]
  {
    assert (a + b)[|a|..] == b;
  }

  /** The first open failed on a log that holds something: the next one copies all of it. */
  lemma OldIsRepeated(s: State) returns (run: seq<Action>)
    requires Began(s) && !SkipsTheOld(s)
    ensures Valid(s, run) && PacedRun(s, run) && Again(s, run) == 0
    ensures var t := After(s, run);
            t.f.out == s.disk.files[|s.disk.files| - 1] && t.disk == s.disk && !(t.f.out <= Appended(s, t))
  {
    run := [Open(true), CopyAll];
    var u := Apply(s, Open(true));
    assert run[1..] == [CopyAll] && [CopyAll][1..] == [];
    assert Valid(u, [CopyAll]);
    assert PacedRun(u, [CopyAll]);
  }

  lemma {:induction false} Extend(s: State, run: seq<Action>, a: Action) returns (longer: seq<Action>)
    requires WellFormed(s.disk) && Valid(s, run) && Enabled(After(s, run), a)
    ensures longer == run + [a]
    ensures Valid(s, longer) && After(s, longer) == Apply(After(s, run), a)
    decreases |run|
  {
    longer := run + [a];
    if run == [] {
      assert longer == [a] && longer[1..] == [];
    } else {
      var tail := Extend(Apply(s, run[0]), run[1..], a);
      assert longer[1..] == tail;
    }
  }

  lemma {:induction false} NoWriterIsPaced(s: State, run: seq<Action>)
    requires WellFormed(s.disk) && Valid(s, run)
    requires forall i :: 0 <= i < |run| ==> !run[i].Writer?
    ensures PacedRun(s, run) && After(s, run).disk == s.disk
    decreases |run|
  {
    if run != [] {
      assert forall i :: 0 <= i < |run[1..]| ==> run[1..][i] == run[i + 1];
      NoWriterIsPaced(Apply(s, run[0]), run[1..]);
    }
  }

  /** A run of the follower alone that leads from s to t. */
  ghost predicate Leads(s: State, run: seq<Action>, t: State) {
    && WellFormed(s.disk) && Valid(s, run) && After(s, run) == t
    && (forall i :: 0 <= i < |run| ==> !run[i].Writer?)
  }

  lemma OneStepOn(s: State, run: seq<Action>, u: State, a: Action, t: State) returns (longer: seq<Action>)
    requires Leads(s, run, u) && !a.Writer? && Enabled(u, a) && Apply(u, a) == t
    ensures Leads(s, longer, t)
  {
    longer := Extend(s, run, a);
  }

  /** At the end of the log, the path's stat fails: the file is closed. */
  lemma ClosedAtItsEnd(s: State) returns (run: seq<Action>, t: State)
    requires Began(s) && s.f.open
    ensures t == s.(f := Follower(false, s.f.gen, 0, "", Reopen, Then(s.f.told, s.f.gen, s.f.pos)))
    ensures Leads(s, run, t)
  {
    var log := s.disk.files[s.f.gen];
    assert log[|log|..] == "" && "" + "" == "";
    var u := s.(f := s.f.(point := Copy));
    run := OneStepOn(s, [], s, Open(true), u);
    var v := s.(f := s.f.(point := Stat));
    run := OneStepOn(s, run, u, CopyAll, v);
    var w := s.(f := s.f.(point := Last));
    run := OneStepOn(s, run, v, StatPath(true, false), w);
    t := s.(f := Follower(false, s.f.gen, 0, "", Reopen, Then(s.f.told, s.f.gen, s.f.pos)));
    run := OneStepOn(s, run, w, CopyLast, t);
  }

  /** The path's stat fails once with the log open at its end: the next poll copies all of it. */
  lemma FailedStatRepeats(s: State) returns (run: seq<Action>)
    requires Began(s) && s.f.open
    ensures Valid(s, run) && PacedRun(s, run)
    ensures var t, log := After(s, run), s.disk.files[|s.disk.files| - 1];
            t.f.out == log && t.disk == s.disk && Again(s, run) == |log|
  {
    var n := s.f.gen;
    var log := s.disk.files[n];
    var u;
    run, u := ClosedAtItsEnd(s);
    var told := Then(s.f.told, n, |log|);
    var v := s.(f := Follower(true, n, 0, "", Wait, told));
    run := OneStepOn(s, run, u, OpenNext(true), v);
    var w := s.(f := Follower(true, n, 0, "", Top, told));
    run := OneStepOn(s, run, v, Tick, w);
    var x := s.(f := Follower(true, n, 0, "", Copy, told));
    run := OneStepOn(s, run, w, Open(true), x);
    assert log[0..] == log && "" + log == log;
    var t := s.(f := Follower(true, n, |log|, log, Stat, told));
    run := OneStepOn(s, run, x, CopyAll, t);
    AgainInAll(s, run, t);
  }

  lemma AgainInAll(s: State, run: seq<Action>, t: State)
    requires Began(s) && s.f.open && Leads(s, run, t) && t.f.open && t.f.gen == s.f.gen
    requires t.f.told == Then(s.f.told, s.f.gen, s.f.pos)
    ensures PacedRun(s, run) && Again(s, run) == s.f.pos
  {
    NoWriterIsPaced(s, run);
    WholesSay(s.disk.files, s.f.gen);
    BeganFaithful(s);
    NoRepeatNoReorder(s, run);
  }

  /** A log made, written and rotated: two files of a byte each. */
  lemma TwoFilesWritten(s: State) returns (run: seq<Action>)
    requires s.disk == Disk([], false, false)
    ensures Valid(s, run) && After(s, run) == s.(disk := Disk(["a", "b"], true, true))
  {
    run := Extend(s, [], Writer(OpenFile));
    assert After(s, run).disk.files == [""];
    run := Extend(s, run, Writer(Append("a")));
    assert "" + "a" == "a" && "" + "b" == "b";
    assert After(s, run).disk.files == ["a"];
    run := Extend(s, run, Writer(CloseFile));
    run := Extend(s, run, Writer(Rename));
    run := Extend(s, run, Writer(OpenFile));
    assert After(s, run).disk.files == ["a", ""];
    run := Extend(s, run, Writer(Append("b")));
    assert After(s, run).disk.files == ["a", "b"];
  }

  /**
  A log made, written and rotated before the follower ever saw it is lost, though there was
  one rotation only.
  */
  lemma UnseenFileIsLost() returns (s: State, run: seq<Action>)
    ensures Began(s) && Valid(s, run)
    ensures var t := After(s, run);
            Stream(t.disk) == "ab" && t.f.point == Wait && t.f.open && t.f.gen == Newest(t.disk) && t.f.out == "b"
  {
    s := State(Disk([], false, false), "", Follower(false, 0, 0, "", Top, Nothing));
    assert s.disk.files[..0] == [];
    run := TwoFilesWritten(s);
    run := Extend(s, run, Open(true));
    run := Extend(s, run, CopyAll);
    assert After(s, run).f.out == "b";
    run := Extend(s, run, StatPath(true, true));
    assert Flat(["a", "b"]) == "ab" by {
      assert ["a", "b"][..1] == ["a"];
      assert ["a"][..0] == [];
    }
  }

  // ---------------------------------------------------------------------
  // followLog's loop
  // ---------------------------------------------------------------------

  /** The writer is quiet, and every open and stat works. */
  ghost predicate Calm(env: nat -> seq<Op>, ok: nat -> bool) { forall i :: env(i) == [] && ok(i) }

  ghost predicate CalmPoll(env: (nat, nat) -> seq<Op>, ok: (nat, nat) -> bool, n: nat) {
    forall i :: env(n, i) == [] && ok(n, i)
  }

  /** followLog with the log's writer beside it. */
  class Tail {
    var st: State
    ghost var was: State
    ghost var run: seq<Action>

    ghost predicate Traced()
      reads this
    {
      Began(was) && Valid(was, run) && st == After(was, run) && Faithful(st)
    }

    /** The log opened at its end; with none, or when that fails, none. */
    constructor (d: Disk, opens: bool)
      requires WellFormed(d)
      ensures Traced() && st.disk == d && st.f.open == (d.linked && opens)
    {
      var gen := First(d);
      var file := if d.linked && opens then d.files[gen] else "";
      var f := Follower(d.linked && opens, gen, |file|, "", Top, Wholes(d.files, gen));
      st := State(d, Flat(d.files[..gen]) + file, f);
      was, run := State(d, Flat(d.files[..gen]) + file, f), [];
      new;
      BeganFaithful(st);
    }

    method Step(a: Action)
      requires Traced() && Enabled(st, a)
      modifies this
      ensures Traced() && was == old(was) && st == Apply(old(st), a)
    {
      ghost var longer := Extend(was, run, a);
      StepKeepsFaithful(st, a);
      run := longer;
      st := Apply(st, a);
    }

    /** The writer's operations that it can do now. */
    method Writes(ops: seq<Op>)
      requires Traced()
      modifies this
      ensures Traced() && was == old(was) && st.f == old(st).f
      ensures ops == [] ==> st == old(st)
    {
      for i := 0 to |ops|
        invariant Traced() && was == old(was) && st.f == old(st).f && (i == 0 ==> st == old(st))
      {
        if Legal(st.disk, ops[i]) { Step(Writer(ops[i])); }
      }
    }

    /** One poll, the writer at work between its steps (env); opens and stats may fail (ok). */
    method Poll(env: nat -> seq<Op>, ok: nat -> bool)
      requires Traced() && st.f.point.Top?
      modifies this
      ensures Traced() && was == old(was) && st.f.point.Wait?
      ensures old(st).f.out <= st.f.out
      ensures Calm(env, ok) ==> st.disk == old(st).disk && AtNewest(st)
    {
      Step(Open(ok(0)));
      if st.f.open { CopyAndLook(env, ok); }
    }

    method CopyAndLook(env: nat -> seq<Op>, ok: nat -> bool)
      requires Traced() && st.f.point.Copy?
      modifies this
      ensures Traced() && was == old(was) && st.f.point.Wait?
      ensures old(st).f.out <= st.f.out
      ensures Calm(env, ok) ==> st.disk == old(st).disk && AtNewest(st)
    {
      Writes(env(0));
      Step(CopyAll);
      Writes(env(1));
      Step(StatPath(ok(2), ok(3)));
      if st.f.point.Last? { NextFile(env, ok); }
    }

    /** The file was renamed aside: what it got since, then the one the path names now. */
    method NextFile(env: nat -> seq<Op>, ok: nat -> bool)
      requires Traced() && st.f.point.Last?
      modifies this
      ensures Traced() && was == old(was) && st.f.point.Wait?
      ensures old(st).f.out <= st.f.out
      ensures Calm(env, ok) ==> st.disk == old(st).disk && AtNewest(st)
    {
      Writes(env(2));
      Step(CopyLast);
      Writes(env(3));
      Step(OpenNext(ok(1)));
    }

    /**
    Polls until the context ends, then copies what is left: each file it had open to its end. With
    nothing missed and nothing copied again that is all but what a file it had not opened yet holds,
    and all there is when nothing disturbed the last poll.
    */
    method Follow(polls: nat, env: (nat, nat) -> seq<Op>, ok: (nat, nat) -> bool)
      requires Traced() && st.f.point.Top?
      modifies this
      ensures Traced() && was == old(was) && st.f.point.Ended?
      ensures st.before + st.f.out ==
                Said(st.disk.files, st.f.told) + (if st.f.open then st.disk.files[st.f.gen] else "")
      ensures var missed, again := Missed(was, run), Again(was, run);
              && |st.before + st.f.out| + |Ahead(st)| + missed == |Stream(st.disk)| + again
              && (missed == 0 && again == 0 ==> st.before + st.f.out + Ahead(st) == Stream(st.disk))
      ensures CalmPoll(env, ok, polls) && Missed(was, run) == 0 && Again(was, run) == 0 ==>
                st.before + st.f.out == Stream(st.disk)
    {
      var n := 0;
      while n < polls
        invariant Traced() && was == old(was) && st.f.point.Top?
      {
        Poll((i: nat) => env(n, i), (i: nat) => ok(n, i));
        Writes(env(n, 4));
        Step(Tick);
        n := n + 1;
      }
      Poll((i: nat) => env(polls, i), (i: nat) => ok(polls, i));
      CopyLeft();
    }

    method CopyLeft()
      requires Traced() && st.f.point.Wait?
      modifies this
      ensures Traced() && was == old(was) && st.f.point.Ended?
      ensures st.before + st.f.out ==
                Said(st.disk.files, st.f.told) + (if st.f.open then st.disk.files[st.f.gen] else "")
      ensures var missed, again := Missed(was, run), Again(was, run);
              && |st.before + st.f.out| + |Ahead(st)| + missed == |Stream(st.disk)| + again
              && (missed == 0 && again == 0 ==> st.before + st.f.out + Ahead(st) == Stream(st.disk))
      ensures AtNewest(old(st)) ==> Ahead(st) == ""
    {
      if st.f.open { CopyIsFaithful(st); }
      Step(Stop);
      BeganBalanced(was);
      RunKeepsBalanced(was, run, 0);
      NoRepeatNoReorder(was, run);
      assert Rest(st) == Ahead(st);
    }
  }
}
