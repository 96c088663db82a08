/**
The sweep of the VOD sessions' folders (streaming/vod_purge.go): what it removes at once,
what it keeps, and what of that goes while the cache's disk is under its floor. What the
sweep reads (the rows, the change times, the disk) and whether each removal works are given
by its surroundings; the trace is what it did, in order.
*/
module VodSweep {

  const SECOND := 1_000_000_000
  const SESSION_IDLE := 90 * SECOND
  const SESSION_GRACE := 600 * SECOND
  const FINISHED_GRACE := 14400 * SECOND

  const GIB := 0x4000_0000
  const WORD := 0x1_0000_0000_0000_0000

  datatype Option<T> = None | Some(value: T)

  datatype Row = Row(closedAt: Option<int>, closedIdle: bool, lastSegmentAt: int, finished: bool)

  datatype Lookup = Missing | Found(row: Row) | Unanswered

  /** A listed folder, with what the sweep reads of it at its turn. */
  datatype Folder = Folder(name: string, isId: bool, session: Lookup, changed: int)

  datatype Kept = Kept(name: string, watched: int)

  datatype Reason = Idle | Closed | Orphaned | DiskLow

  /** A reading of the disk; floor: the free space it must have, 0 for none. */
  datatype Reading = Unread | Bytes(free: nat, floor: nat)

  datatype Event = Tried(name: string, reason: Reason, removed: bool) | Read(reading: Reading)

  /** The surroundings, by how much the sweep did before: does a removal work, what has the disk. */
  datatype Env = Env(removes: nat -> bool, disk: nat -> Option<(nat, nat)>)

  function Min(a: int, b: int): int { if a < b then a else b }

  function Max(a: int, b: int): int { if a < b then b else a }

  /** vodDisk.space: minFreeGiB as configured, 0 for automatic, below 0 for none. */
  function Space(minFreeGiB: int, disk: Option<(nat, nat)>): Reading {
    if disk.None? then Unread
    else
      var (free, total) := disk.value;
      Bytes(free,
            if minFreeGiB < 0 then 0
            else if minFreeGiB > 0 then minFreeGiB * GIB % WORD
            else Max(Min(total / 10, 20 * GIB), 3 * GIB))
  }

  /** Nothing more is freed after this reading. */
  predicate Enough(r: Reading) { r.Unread? || r.free >= r.floor }

  function LastWatched(row: Row): int {
    if row.closedAt.Some? && row.closedAt.value > row.lastSegmentAt then row.closedAt.value else row.lastSegmentAt
  }

  function Grace(row: Row): int { if row.finished then FINISHED_GRACE else SESSION_GRACE }

  /** The folder of a session closed for being idle, within its grace. */
  predicate Graced(f: Folder, now: int) {
    && f.isId && f.session.Found? && f.session.row.closedAt.Some? && f.session.row.closedIdle
    && now - LastWatched(f.session.row) < Grace(f.session.row)
  }

  /** Why a folder goes at once, if it does. */
  predicate Due(f: Folder, now: int, why: Reason) {
    f.isId &&
    match why
    case Closed => f.session.Found? && f.session.row.closedAt.Some? && !f.session.row.closedIdle
    case Idle =>
      && f.session.Found? && f.session.row.closedAt.Some? && f.session.row.closedIdle
      && now - LastWatched(f.session.row) >= Grace(f.session.row)
    case Orphaned => f.session.Missing? && now - f.changed >= SESSION_IDLE
    case DiskLow => false
  }

  /** The sweep's verdict on a folder. */
  datatype Verdict = Skip | Keep(watched: int) | Remove(why: Reason)

  function Judge(f: Folder, now: int): (v: Verdict)
    ensures forall why :: v == Remove(why) <==> Due(f, now, why)
    ensures v.Keep? <==> Graced(f, now)
    ensures v.Keep? ==> v.watched == LastWatched(f.session.row)
  {
    if !f.isId || f.session.Unanswered? then Skip
    else if f.session.Found? then
      var row := f.session.row;
      if row.closedAt.None? then Skip
      else if row.closedIdle then
        if now - LastWatched(row) < Grace(row) then Keep(LastWatched(row)) else Remove(Idle)
      else Remove(Closed)
    else if now - f.changed < SESSION_IDLE then Skip
    else Remove(Orphaned)
  }

  // ---------------------------------------------------------------------
  // What a sweep does
  // ---------------------------------------------------------------------

  /** The removals made while the folders are gone through, after n events. */
  function First(fs: seq<Folder>, now: int, env: Env, n: nat): seq<Event> {
    if fs == [] then []
    else
      var k := |fs| - 1;
      var done, v := First(fs[..k], now, env, n), Judge(fs[k], now);
      if v.Remove? then done + [Tried(fs[k].name, v.why, env.removes(n + |done|))] else done
  }

  function KeptOf(fs: seq<Folder>, now: int): seq<Kept> {
    if fs == [] then []
    else
      var k := |fs| - 1;
      var v := Judge(fs[k], now);
      KeptOf(fs[..k], now) + if v.Keep? then [Kept(fs[k].name, v.watched)] else []
  }

  /** The disk read, then the removals for its floor, in this order, after n events. */
  function Check(order: seq<Kept>, minFree: int, env: Env, n: nat): seq<Event>
    decreases |order|, 1
  {
    var r := Space(minFree, env.disk(n));
    [Read(r)] + if Enough(r) then [] else Free(order, minFree, env, n + 1)
  }

  function Free(order: seq<Kept>, minFree: int, env: Env, n: nat): seq<Event>
    decreases |order|, 0
  {
    if order == [] then []
    else
      var ok := env.removes(n);
      [Tried(order[0].name, DiskLow, ok)] +
      if ok then Check(order[1..], minFree, env, n + 1) else Free(order[1..], minFree, env, n + 1)
  }

  function Second(order: seq<Kept>, minFree: int, env: Env, n: nat): seq<Event> {
    if order == [] then [] else Check(order, minFree, env, n)
  }

  predicate Sorted(s: seq<Kept>) { forall i, j :: 0 <= i < j < |s| ==> s[i].watched <= s[j].watched }

  class Sweeper {
    const minFreeGiB: int
    var trace: seq<Event>

    constructor (minFreeGiB: int)
      ensures this.minFreeGiB == minFreeGiB && trace == []
    {
      this.minFreeGiB := minFreeGiB;
      trace := [];
    }

    method Purge(name: string, reason: Reason, env: Env) returns (removed: bool)
      modifies this
      ensures removed == env.removes(|old(trace)|) && trace == old(trace) + [Tried(name, reason, removed)]
    {
      removed := env.removes(|trace|);
      trace := trace + [Tried(name, reason, removed)];
    }

    method ReadDisk(env: Env) returns (r: Reading)
      modifies this
      ensures r == Space(minFreeGiB, env.disk(|old(trace)|)) && trace == old(trace) + [Read(r)]
    {
      r := Space(minFreeGiB, env.disk(|trace|));
      trace := trace + [Read(r)];
    }

    /** purgeVODSessions; listed is None when the folders cannot be listed. */
    method PurgeSessions(listed: Option<seq<Folder>>, now: int, env: Env) returns (order: seq<Kept>)
      modifies this
      ensures listed.None? ==> trace == old(trace)
      ensures listed.Some? ==>
                && Sorted(order) && multiset(order) == multiset(KeptOf(listed.value, now))
                && var first := First(listed.value, now, env, |old(trace)|);
                   trace == old(trace) + first + Second(order, minFreeGiB, env, |old(trace) + first|)
    {
      order := [];
      if listed.None? { return; }
      var kept := GoThrough(listed.value, now, env);
      order := SortByWatched(kept);
      SameSize(order, kept);
      if kept == [] {
        assert trace + [] == trace;
        return;
      }
      FreeUp(order, env);
    }

    /** The loop over the folders: what is due goes, what is graced is kept for now. */
    method GoThrough(fs: seq<Folder>, now: int, env: Env) returns (kept: seq<Kept>)
      modifies this
      ensures trace == old(trace) + First(fs, now, env, |old(trace)|) && kept == KeptOf(fs, now)
    {
      kept := [];
      for i := 0 to |fs|
        invariant trace == old(trace) + First(fs[..i], now, env, |old(trace)|)
        invariant kept == KeptOf(fs[..i], now)
      {
        assert fs[..i + 1][..i] == fs[..i];
        var v := Judge(fs[i], now);
        match v
        case Skip =>
        case Keep(watched) => kept := kept + [Kept(fs[i].name, watched)];
        case Remove(why) =>
          var removed := Purge(fs[i].name, why, env);
      }
      assert fs[..|fs|] == fs;
    }

    /** The disk read, and read again after each removal until it has enough. */
    method FreeUp(order: seq<Kept>, env: Env)
      modifies this
      ensures trace == old(trace) + Check(order, minFreeGiB, env, |old(trace)|)
    {
      ghost var all := trace + Check(order, minFreeGiB, env, |trace|);
      CheckUnfolds(order, minFreeGiB, env, trace);
      var r := ReadDisk(env);
      if Enough(r) { return; }
      assert order[0..] == order;
      for i := 0 to |order|
        invariant trace + Free(order[i..], minFreeGiB, env, |trace|) == all
      {
        FreeUnfolds(order, i, minFreeGiB, env, trace);
        var removed := Purge(order[i].name, DiskLow, env);
        if removed {
          CheckUnfolds(order[i + 1..], minFreeGiB, env, trace);
          r := ReadDisk(env);
          if Enough(r) { return; }
        }
      }
      assert order[|order|..] == [];
    }
  }

  lemma FreeUnfolds(order: seq<Kept>, i: nat, minFree: int, env: Env, t: seq<Event>)
    requires i < |order|
    ensures var more, left := t + [Tried(order[i].name, DiskLow, env.removes(|t|))], order[i + 1..];
            t + Free(order[i..], minFree, env, |t|) ==
            more + if env.removes(|t|) then Check(left, minFree, env, |more|) else Free(left, minFree, env, |more|)
  {
    var e, left := Tried(order[i].name, DiskLow, env.removes(|t|)), order[i + 1..];
    assert order[i..][0] == order[i] && order[i..][1..] == left;
    Regroup(t, e, if e.removed then Check(left, minFree, env, |t| + 1) else Free(left, minFree, env, |t| + 1));
  }

  lemma CheckUnfolds(order: seq<Kept>, minFree: int, env: Env, t: seq<Event>)
    ensures var r := Space(minFree, env.disk(|t|));
            t + Check(order, minFree, env, |t|) ==
            t + [Read(r)] + if Enough(r) then [] else Free(order, minFree, env, |t| + 1)
  {
    var r := Space(minFree, env.disk(|t|));
    Regroup(t, Read(r), if Enough(r) then [] else Free(order, minFree, env, |t| + 1));
  }

  lemma Regroup(t: seq<Event>, e: Event, rest: seq<Event>)
    ensures t + ([e] + rest) == t + [e] + rest
  {
  }

  lemma SameSize(a: seq<Kept>, b: seq<Kept>)
    requires multiset(a) == multiset(b)
    ensures |a| == |b|
  {
    assert |multiset(a)| == |a| && |multiset(b)| == |b|;
  }

  method SortByWatched(kept: seq<Kept>) returns (order: seq<Kept>)
    ensures Sorted(order) && multiset(order) == multiset(kept)
  {
    order := [];
    for i := 0 to |kept|
      invariant Sorted(order) && multiset(order) == multiset(kept[..i])
    {
      assert kept[..i + 1] == kept[..i] + [kept[i]];
      order := Insert(order, kept[i]);
    }
    assert kept[..|kept|] == kept;
  }

  method Insert(order: seq<Kept>, k: Kept) returns (more: seq<Kept>)
    requires Sorted(order)
    ensures Sorted(more) && multiset(more) == multiset(order) + multiset{k}
  {
    var j := |order|;
    while j > 0 && k.watched < order[j - 1].watched
      invariant 0 <= j <= |order|
      invariant forall i :: j <= i < |order| ==> k.watched < order[i].watched
    {
      j := j - 1;
    }
    more := order[..j] + [k] + order[j..];
    InsertedSorted(order, j, k);
    InsertedAll(order, j, k);
  }

  lemma InsertedAll(order: seq<Kept>, j: nat, k: Kept)
    requires j <= |order|
    ensures multiset(order[..j] + [k] + order[j..]) == multiset(order) + multiset{k}
  {
    assert order == order[..j] + order[j..];
  }

  lemma InsertedSorted(order: seq<Kept>, j: nat, k: Kept)
    requires Sorted(order) && j <= |order|
    requires j > 0 ==> order[j - 1].watched <= k.watched
    requires forall i :: j <= i < |order| ==> k.watched < order[i].watched
    ensures Sorted(order[..j] + [k] + order[j..])
  {
    var more := order[..j] + [k] + order[j..];
    assert forall i :: 0 <= i < |more| ==> more[i] == if i < j then order[i] else if i == j then k else order[i - 1];
  }

  // ---------------------------------------------------------------------
  // What a sweep promises
  // ---------------------------------------------------------------------

  /** The last reading of the disk. */
  function LastReading(t: seq<Event>): Option<Reading> {
    if t == [] then None else if t[|t| - 1].Read? then Some(t[|t| - 1].reading) else LastReading(t[..|t| - 1])
  }

  predicate UnderFloor(t: seq<Event>) {
    LastReading(t).Some? && LastReading(t).value.Bytes? && LastReading(t).value.free < LastReading(t).value.floor
  }

  /** Each removal for the floor was made with the disk last read under it. */
  predicate FreedUnderFloor(t: seq<Event>) {
    t == [] || (FreedUnderFloor(t[..|t| - 1]) &&
                (t[|t| - 1].Tried? && t[|t| - 1].reason.DiskLow? ==> UnderFloor(t[..|t| - 1])))
  }

  lemma ReadNow(t: seq<Event>, e: Event)
    ensures LastReading(t + [e]) == if e.Read? then Some(e.reading) else LastReading(t)
    ensures FreedUnderFloor(t + [e]) <==> FreedUnderFloor(t) && (e.Tried? && e.reason.DiskLow? ==> UnderFloor(t))
  {
    assert (t + [e])[..|t|] == t;
  }

  lemma {:induction false} FirstFreesNothing(t: seq<Event>, fs: seq<Folder>, now: int, env: Env)
    requires FreedUnderFloor(t)
    ensures FreedUnderFloor(t + First(fs, now, env, |t|))
  {
    if fs == [] {
      assert t + First(fs, now, env, |t|) == t;
    } else {
      var k := |fs| - 1;
      FirstFreesNothing(t, fs[..k], now, env);
      var done, v := First(fs[..k], now, env, |t|), Judge(fs[k], now);
      if v.Remove? {
        var e := Tried(fs[k].name, v.why, env.removes(|t| + |done|));
        assert t + (done + [e]) == t + done + [e];
        ReadNow(t + done, e);
      }
    }
  }

  lemma {:induction false} CheckFreesUnderFloor(t: seq<Event>, order: seq<Kept>, minFree: int, env: Env)
    requires FreedUnderFloor(t)
    ensures FreedUnderFloor(t + Check(order, minFree, env, |t|))
    decreases |order|, 1
  {
    var r := Space(minFree, env.disk(|t|));
    ReadNow(t, Read(r));
    if Enough(r) {
      assert Check(order, minFree, env, |t|) == [Read(r)];
    } else {
      FreeFreesUnderFloor(t + [Read(r)], order, minFree, env);
      Regroup(t, Read(r), Free(order, minFree, env, |t| + 1));
    }
  }

  lemma {:induction false} FreeFreesUnderFloor(t: seq<Event>, order: seq<Kept>, minFree: int, env: Env)
    requires FreedUnderFloor(t) && UnderFloor(t)
    ensures FreedUnderFloor(t + Free(order, minFree, env, |t|))
    decreases |order|, 0
  {
    if order == [] {
      assert t + [] == t;
    } else {
      var e := Tried(order[0].name, DiskLow, env.removes(|t|));
      ReadNow(t, e);
      if e.removed {
        CheckFreesUnderFloor(t + [e], order[1..], minFree, env);
        Regroup(t, e, Check(order[1..], minFree, env, |t| + 1));
      } else {
        FreeFreesUnderFloor(t + [e], order[1..], minFree, env);
        Regroup(t, e, Free(order[1..], minFree, env, |t| + 1));
      }
    }
  }

  /** A sweep never removes what it keeps for its grace but with the disk read under its floor. */
  lemma GracedGoOnlyUnderFloor(t: seq<Event>, fs: seq<Folder>, order: seq<Kept>, minFree: int, now: int, env: Env)
    requires FreedUnderFloor(t)
    ensures var first := First(fs, now, env, |t|);
            FreedUnderFloor(t + first + Second(order, minFree, env, |t + first|))
  {
    var u := t + First(fs, now, env, |t|);
    FirstFreesNothing(t, fs, now, env);
    if order == [] {
      assert u + [] == u;
    } else {
      CheckFreesUnderFloor(u, order, minFree, env);
    }
  }

  /** What was tried for a reason. */
  function TriedFor(t: seq<Event>, disk: bool): seq<(string, Reason)> {
    if t == [] then []
    else if t[0].Tried? && t[0].reason.DiskLow? == disk then [(t[0].name, t[0].reason)] + TriedFor(t[1..], disk)
    else TriedFor(t[1..], disk)
  }

  lemma {:induction false} TriedForJoin(a: seq<Event>, b: seq<Event>, disk: bool)
    ensures TriedFor(a + b, disk) == TriedFor(a, disk) + TriedFor(b, disk)
  {
    if a == [] {
      assert a + b == b;
    } else {
      assert (a + b)[1..] == a[1..] + b;
      TriedForJoin(a[1..], b, disk);
    }
  }

  /** The folders due, each with its reason, in the order they were listed. */
  function DueOf(fs: seq<Folder>, now: int): seq<(string, Reason)> {
    if fs == [] then []
    else
      var k := |fs| - 1;
      var v := Judge(fs[k], now);
      DueOf(fs[..k], now) + if v.Remove? then [(fs[k].name, v.why)] else []
  }

  function Names(order: seq<Kept>): seq<(string, Reason)> {
    seq(|order|, i requires 0 <= i < |order| => (order[i].name, DiskLow))
  }

  lemma NamesOfMore(order: seq<Kept>, k: nat)
    requires k < |order|
    ensures Names(order[..k + 1]) == [(order[0].name, DiskLow)] + Names(order[1..][..k])
  {
  }

  lemma OneTriedMore(done: seq<Event>, name: string, why: Reason, ok: bool)
    requires why != DiskLow
    ensures var t := done + [Tried(name, why, ok)];
            TriedFor(t, false) == TriedFor(done, false) + [(name, why)] && TriedFor(t, true) == TriedFor(done, true)
  {
    var e := Tried(name, why, ok);
    TriedForJoin(done, [e], false);
    TriedForJoin(done, [e], true);
    assert [e][1..] == [];
  }

  lemma {:induction false} FirstTriesTheDue(fs: seq<Folder>, now: int, env: Env, n: nat)
    ensures TriedFor(First(fs, now, env, n), false) == DueOf(fs, now)
    ensures TriedFor(First(fs, now, env, n), true) == []
  {
    if fs != [] {
      var k := |fs| - 1;
      FirstTriesTheDue(fs[..k], now, env, n);
      var done, v := First(fs[..k], now, env, n), Judge(fs[k], now);
      if v.Remove? {
        OneTriedMore(done, fs[k].name, v.why, env.removes(n + |done|));
      }
    }
  }

  lemma TriedForOne(e: Event, rest: seq<Event>, disk: bool)
    ensures TriedFor([e] + rest, disk) ==
              (if e.Tried? && e.reason.DiskLow? == disk then [(e.name, e.reason)] else []) + TriedFor(rest, disk)
  {
    assert ([e] + rest)[1..] == rest;
  }

  /** Events that try the first m of order for the floor, and leave the others only once there is enough. */
  ghost predicate TriesFirst(t: seq<Event>, order: seq<Kept>, m: nat) {
    && m <= |order|
    && TriedFor(t, true) == Names(order[..m]) && TriedFor(t, false) == []
    && (m < |order| ==> LastReading(t).Some? && Enough(LastReading(t).value))
  }

  lemma {:induction false} CheckTriesFirst(order: seq<Kept>, minFree: int, env: Env, n: nat) returns (m: nat)
    ensures TriesFirst(Check(order, minFree, env, n), order, m)
    decreases |order|, 1
  {
    var r := Space(minFree, env.disk(n));
    if Enough(r) {
      m := 0;
      TriedForOne(Read(r), [], true);
      TriedForOne(Read(r), [], false);
      assert [Read(r)] + [] == [Read(r)];
    } else {
      var rest := Free(order, minFree, env, n + 1);
      m := FreeTriesFirst(order, minFree, env, n + 1);
      TriedForOne(Read(r), rest, true);
      TriedForOne(Read(r), rest, false);
      if m < |order| { LastReadingJoin([Read(r)], rest); }
    }
  }

  lemma {:induction false} FreeTriesFirst(order: seq<Kept>, minFree: int, env: Env, n: nat) returns (m: nat)
    ensures TriesFirst(Free(order, minFree, env, n), order, m)
    decreases |order|, 0
  {
    if order == [] {
      m := 0;
    } else {
      var e := Tried(order[0].name, DiskLow, env.removes(n));
      var rest: seq<Event>, k: nat;
      if e.removed {
        rest := Check(order[1..], minFree, env, n + 1);
        k := CheckTriesFirst(order[1..], minFree, env, n + 1);
      } else {
        rest := Free(order[1..], minFree, env, n + 1);
        k := FreeTriesFirst(order[1..], minFree, env, n + 1);
      }
      m := k + 1;
      TriedForOne(e, rest, true);
      TriedForOne(e, rest, false);
      NamesOfMore(order, k);
      if k < |order[1..]| { LastReadingJoin([e], rest); }
    }
  }

  lemma {:induction false} LastReadingJoin(a: seq<Event>, b: seq<Event>)
    requires LastReading(b).Some?
    ensures LastReading(a + b) == LastReading(b)
  {
    assert (a + b)[..|a + b| - 1] == a + b[..|b| - 1];
    if !b[|b| - 1].Read? { LastReadingJoin(a, b[..|b| - 1]); }
  }

  /**
  Every folder due is tried once, for its reason, in the order listed, and nothing else is
  but the first m kept ones, the longest unwatched first. Some are left only when the last
  reading found enough free (or failed).
  */
  lemma SweepTries(fs: seq<Folder>, order: seq<Kept>, minFree: int, now: int, env: Env, n: nat) returns (m: nat)
    ensures m <= |order|
    ensures var first := First(fs, now, env, n);
            var t := first + Second(order, minFree, env, n + |first|);
            && TriedFor(t, false) == DueOf(fs, now)
            && TriedFor(t, true) == Names(order[..m])
            && (m < |order| ==> LastReading(t).Some? && Enough(LastReading(t).value))
  {
    var first := First(fs, now, env, n);
    var second := Second(order, minFree, env, n + |first|);
    FirstTriesTheDue(fs, now, env, n);
    TriedForJoin(first, second, true);
    TriedForJoin(first, second, false);
    if order == [] {
      m := 0;
    } else {
      m := CheckTriesFirst(order, minFree, env, n + |first|);
      if m < |order| { LastReadingJoin(first, second); }
    }
  }

  /**
  With no failed removal, the kept ones removed are the shortest prefix after which the disk
  has enough: the reading after each shorter one (the k-th after k removals) was under the floor.
  */
  lemma {:induction false} ShortestPrefix(order: seq<Kept>, minFree: int, env: Env, n: nat) returns (m: nat)
    requires forall i :: env.removes(i)
    ensures m <= |order| && TriedFor(Check(order, minFree, env, n), true) == Names(order[..m])
    ensures forall k :: 0 <= k < m ==> !Enough(Space(minFree, env.disk(n + 2 * k)))
    ensures m < |order| ==> Enough(Space(minFree, env.disk(n + 2 * m)))
  {
    var r := Space(minFree, env.disk(n));
    if Enough(r) || order == [] {
      m := 0;
      TriedForOne(Read(r), [], true);
      assert Check(order, minFree, env, n) == [Read(r)] + [];
      assert Names(order[..0]) == [];
    } else {
      var e := Tried(order[0].name, DiskLow, true);
      var rest := Check(order[1..], minFree, env, n + 2);
      var k := ShortestPrefix(order[1..], minFree, env, n + 2);
      m := k + 1;
      assert Free(order, minFree, env, n + 1) == [e] + rest;
      TriedForOne(Read(r), [e] + rest, true);
      TriedForOne(e, rest, true);
      NamesOfMore(order, k);
      forall i | 0 <= i < m ensures !Enough(Space(minFree, env.disk(n + 2 * i))) {
        if i > 0 { assert n + 2 * i == n + 2 + 2 * (i - 1); }
      }
    }
  }

  // ---------------------------------------------------------------------
  // What a sweep leaves alone
  // ---------------------------------------------------------------------

  /** Open, being opened, unanswered for, or no session's. */
  predicate LeftAlone(f: Folder, now: int) {
    || !f.isId
    || f.session.Unanswered?
    || (f.session.Found? && f.session.row.closedAt.None?)
    || (f.session.Missing? && now - f.changed < SESSION_IDLE)
  }

  lemma {:induction false} DueAreFolders(fs: seq<Folder>, now: int, i: nat)
    requires i < |DueOf(fs, now)|
    ensures exists j :: 0 <= j < |fs| && fs[j].name == DueOf(fs, now)[i].0 && Due(fs[j], now, DueOf(fs, now)[i].1)
  {
    var k := |fs| - 1;
    if i < |DueOf(fs[..k], now)| {
      DueAreFolders(fs[..k], now, i);
      var j :| 0 <= j < k && fs[..k][j].name == DueOf(fs[..k], now)[i].0 && Due(fs[..k][j], now, DueOf(fs[..k], now)[i].1);
      assert fs[j] == fs[..k][j];
    } else {
      assert Due(fs[k], now, Judge(fs[k], now).why);
    }
  }

  lemma {:induction false} KeptAreGraced(fs: seq<Folder>, now: int, i: nat)
    requires i < |KeptOf(fs, now)|
    ensures exists j :: 0 <= j < |fs| && fs[j].name == KeptOf(fs, now)[i].name && Graced(fs[j], now)
  {
    var k := |fs| - 1;
    if i < |KeptOf(fs[..k], now)| {
      KeptAreGraced(fs[..k], now, i);
      var j :| 0 <= j < k && fs[..k][j].name == KeptOf(fs[..k], now)[i].name && Graced(fs[..k][j], now);
      assert fs[j] == fs[..k][j];
    } else {
      assert Graced(fs[k], now);
    }
  }

  /** Every graced folder is kept, with the time it was last watched. */
  lemma {:induction false} GracedAreKept(fs: seq<Folder>, now: int, f: nat)
    requires f < |fs| && Graced(fs[f], now)
    ensures Kept(fs[f].name, LastWatched(fs[f].session.row)) in KeptOf(fs, now)
  {
    var k := |fs| - 1;
    if f < k {
      GracedAreKept(fs[..k], now, f);
      assert fs[..k][f] == fs[f];
    }
  }

  /** And every due one is to go, for its reason. */
  lemma {:induction false} DueAreTried(fs: seq<Folder>, now: int, f: nat, why: Reason)
    requires f < |fs| && Due(fs[f], now, why)
    ensures (fs[f].name, why) in DueOf(fs, now)
  {
    var k := |fs| - 1;
    if f < k {
      DueAreTried(fs[..k], now, f, why);
      assert fs[..k][f] == fs[f];
    }
  }

  /**
  The folder of a session closed for being idle is kept for 10 minutes after it was closed or, if
  that is later, last fetched from, and for 4 hours if its transcode was finished; then it goes.
  */
  lemma IdleIsKeptForItsGrace(f: Folder, now: int)
    requires f.isId && f.session.Found? && f.session.row.closedAt.Some? && f.session.row.closedIdle
    ensures var row := f.session.row;
            var grace := if row.finished then 4 * 3600 * SECOND else 10 * 60 * SECOND;
            if now < row.closedAt.value + grace || now < row.lastSegmentAt + grace then
              Judge(f, now) == Keep(if row.lastSegmentAt <= row.closedAt.value then row.closedAt.value else row.lastSegmentAt)
            else Judge(f, now) == Remove(Idle)
  {
  }

  lemma KeptAreFolders(fs: seq<Folder>, order: seq<Kept>, now: int, m: nat, name: string, why: Reason)
    requires multiset(order) == multiset(KeptOf(fs, now)) && m <= |order|
    requires (name, why) in Names(order[..m])
    ensures exists j :: 0 <= j < |fs| && fs[j].name == name && Graced(fs[j], now)
  {
    var i :| 0 <= i < |Names(order[..m])| && Names(order[..m])[i] == (name, why);
    assert order[i].name == name && order[i] in multiset(order);
    assert order[i] in KeptOf(fs, now);
    var k :| 0 <= k < |KeptOf(fs, now)| && KeptOf(fs, now)[k] == order[i];
    KeptAreGraced(fs, now, k);
  }

  lemma NotDue(fs: seq<Folder>, now: int, f: nat, why: Reason)
    requires forall i, j :: 0 <= i < j < |fs| ==> fs[i].name != fs[j].name
    requires f < |fs| && LeftAlone(fs[f], now)
    ensures (fs[f].name, why) !in DueOf(fs, now)
  {
    if i: nat :| i < |DueOf(fs, now)| && DueOf(fs, now)[i] == (fs[f].name, why) { DueAreFolders(fs, now, i); }
  }

  lemma NotGraced(fs: seq<Folder>, order: seq<Kept>, now: int, m: nat, f: nat, why: Reason)
    requires multiset(order) == multiset(KeptOf(fs, now)) && m <= |order|
    requires forall i, j :: 0 <= i < j < |fs| ==> fs[i].name != fs[j].name
    requires f < |fs| && LeftAlone(fs[f], now)
    ensures (fs[f].name, why) !in Names(order[..m])
  {
    if (fs[f].name, why) in Names(order[..m]) { KeptAreFolders(fs, order, now, m, fs[f].name, why); }
  }

  /** A sweep tries none of the folders it must leave alone, whatever the disk has. */
  lemma NeverTouched(fs: seq<Folder>, order: seq<Kept>, minFree: int, now: int, env: Env, n: nat, f: nat, why: Reason)
    requires multiset(order) == multiset(KeptOf(fs, now))
    requires forall i, j :: 0 <= i < j < |fs| ==> fs[i].name != fs[j].name
    requires f < |fs| && LeftAlone(fs[f], now)
    ensures var first := First(fs, now, env, n);
            var t := first + Second(order, minFree, env, n + |first|);
            forall ok: bool :: Tried(fs[f].name, why, ok) !in t
  {
    var first := First(fs, now, env, n);
    var t := first + Second(order, minFree, env, n + |first|);
    assert (fs[f].name, why) !in TriedFor(t, why.DiskLow?) by {
      var m := SweepTries(fs, order, minFree, now, env, n);
      NotDue(fs, now, f, why);
      NotGraced(fs, order, now, m, f, why);
    }
    NotTriedFor(t, fs[f].name, why);
  }

  lemma {:induction false} InTriedFor(t: seq<Event>, name: string, why: Reason, ok: bool)
    requires Tried(name, why, ok) in t
    ensures (name, why) in TriedFor(t, why.DiskLow?)
  {
    if t[0] != Tried(name, why, ok) { InTriedFor(t[1..], name, why, ok); }
  }

  lemma NotTriedFor(t: seq<Event>, name: string, why: Reason)
    requires (name, why) !in TriedFor(t, why.DiskLow?)
    ensures forall ok: bool :: Tried(name, why, ok) !in t
  {
    if ok: bool :| Tried(name, why, ok) in t { InTriedFor(t, name, why, ok); }
  }

  /** The floor as configured: so many GiB, none below 0; with the disk unread there is none to be under. */
  lemma ConfiguredFloor(minFreeGiB: int, free: nat, total: nat)
    ensures minFreeGiB < 0 ==> Space(minFreeGiB, Some((free, total))) == Bytes(free, 0)
    ensures 0 < minFreeGiB && minFreeGiB * 0x4000_0000 < WORD ==>
              Space(minFreeGiB, Some((free, total))) == Bytes(free, minFreeGiB * 0x4000_0000)
    ensures minFreeGiB < 0 ==> Enough(Space(minFreeGiB, Some((free, total))))
    ensures Enough(Space(minFreeGiB, None))
  {
  }

  /** The automatic floor: a tenth of the disk, but 3 GiB at least and 20 GiB at most. */
  lemma AutomaticFloor(free: nat, total: nat)
    ensures var r := Space(0, Some((free, total)));
            && r.Bytes? && 3 * GIB <= r.floor <= 20 * GIB
            && (30 * GIB <= total <= 200 * GIB ==> r.floor == total / 10)
  {
  }
}
