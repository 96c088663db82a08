/**
The rotating --log-file (cmd/maktaba-launcher/logfile.go): writing never fails. What the
disk refuses is dropped and counted, the file is tried again after a wait, and a line then
says how much was lost.
*/
module LogFile {
  import opened Decimal
  import opened LogDisk

  datatype Option<T> = None | Some(value: T)

  /** The wait before the file is tried again (10 s), in nanoseconds. */
  const LOG_RETRY := 10_000_000_000

  /** What the disk answers during one Write. */
  datatype Luck = Luck(
    open: bool, stat: bool, note: Option<nat>,            // the retry: reopen, its stat, the note
    close: bool, rename: bool, open2: bool, stat2: bool,  // the rotation
    write: Option<nat>,                                   // p itself
    why: string)                                          // its words when it refuses
  // note, write: None when written whole, else how many bytes went out before the error

  /** The line that says how much was lost. */
  function Note(lost: nat, why: string): string {
    "[maktaba-launcher] " + Digits(lost) + " bytes of output were lost: the log could not be written (" + why + ")\n"
  }

  function Max(a: int, b: int): int { if a < b then b else a }

  function Cut(b: string, n: Option<nat>): string {
    match n
    case None => b
    case Some(k) => if k <= |b| then b[..k] else b
  }

  function Renames(ops: seq<Op>): nat {
    if ops == [] then 0 else Renames(ops[..|ops| - 1]) + (if ops[|ops| - 1].Rename? then 1 else 0)
  }

  /**
  What became of a call: written whole after the note that named so many lost bytes, if there was
  one; or lost, with what of the note and of it went out.
  */
  datatype Fate = Whole(note: string, named: nat) | Lost(put: string, named: nat)

  /** What a call put into the log. */
  function Put(call: string, f: Fate): string {
    match f
    case Whole(note, _) => note + call
    case Lost(put, _) => put
  }

  /** And all of them, in order. */
  function PutBy(calls: seq<string>, fates: seq<Fate>): string
    requires |calls| == |fates|
  {
    if calls == [] then ""
    else
      var n := |calls| - 1;
      PutBy(calls[..n], fates[..n]) + Put(calls[n], fates[n])
  }

  /** The bytes of the calls written whole. */
  function WholeBytes(calls: seq<string>, fates: seq<Fate>): nat
    requires |calls| == |fates|
  {
    if calls == [] then 0
    else
      var n := |calls| - 1;
      WholeBytes(calls[..n], fates[..n]) + if fates[n].Whole? then |calls[n]| else 0
  }

  /** The lost bytes their notes named. */
  function NamedBytes(fates: seq<Fate>): nat {
    if fates == [] then 0 else NamedBytes(fates[..|fates| - 1]) + fates[|fates| - 1].named
  }

  /** A note names what was lost; there is none when nothing was. */
  ghost predicate Names(note: string, named: nat) {
    (note == "" && named == 0) || exists why :: note == Note(named, why)
  }

  /** A note that named something went out before what there is of the call; else less than both. */
  ghost predicate Fit(call: string, f: Fate) {
    match f
    case Whole(note, named) => Names(note, named)
    case Lost(put, named) => named == 0 || exists why :: Note(named, why) <= put <= Note(named, why) + call
  }

  ghost predicate Accounted(calls: seq<string>, fates: seq<Fate>) {
    |fates| == |calls| && forall i :: 0 <= i < |calls| ==> Fit(calls[i], fates[i])
  }

  datatype Tally = Tally(given: int, kept: int, reported: int)

  /** Those calls, and what they put into the log and counted. */
  ghost predicate Grown(calls: seq<string>, fates: seq<Fate>, was: string, from: Tally, is_: string, tally: Tally) {
    && |calls| == |fates|
    && is_ == was + PutBy(calls, fates)
    && tally.given == from.given + |Flat(calls)|
    && tally.kept == from.kept + WholeBytes(calls, fates)
    && tally.reported == from.reported + NamedBytes(fates)
  }

  class Log {
    const limit: nat
    var disk: Disk           // f is nil when it is not open
    var size: int
    var failed: Option<int>  // when writing last failed (None: it works)
    var dropped: nat         // what was lost since
    var why: string

    // the bytes given to Write, those of wholly written calls and those the notes named
    ghost var given: nat
    ghost var kept: nat
    ghost var reported: nat
    ghost var ops: seq<Op>
    ghost const first: Disk

    /** The path is as the operations since the first left it. */
    ghost predicate Sound()
      reads this
    {
      WellFormed(first) && LegalAll(first, ops) && disk == DoAll(first, ops)
    }

    ghost predicate Valid()
      reads this
    {
      && Sound()
      && (failed.None? ==> disk.open && dropped == 0)
      && (disk.open ==> size == |Newest(disk)|)
      && given == kept + reported + dropped
    }

    /** openLogFile: a log over the limit is renamed aside, then the path is opened. */
    constructor (d: Disk, max: nat, rename: bool)
      requires WellFormed(d) && !d.open
      ensures Valid() && limit == max && failed.None? && given == 0
      ensures Stream(disk) == Stream(d)
      ensures rename ==> size <= limit
    {
      limit := max;
      failed, dropped, why := None, 0, "";
      given, kept, reported := 0, 0, 0;
      first, disk, ops, size := d, d, [], 0;
      new;
      if disk.linked && |Newest(disk)| > limit && rename { Step(Rename); }
      Step(OpenFile);
      size := |Newest(disk)|;
    }

    /** One operation on the path. */
    method Step(op: Op)
      requires Sound()
      requires Legal(disk, op)
      modifies this`disk, this`ops
      ensures Sound()
      ensures disk == Do(old(disk), op) && ops == old(ops) + [op]
      ensures Stream(disk) == Stream(old(disk)) + (if op.Append? then op.bytes else "")
      ensures Renames(ops) == Renames(old(ops)) + (if op.Rename? then 1 else 0)
    {
      DoOneMore(first, ops, op);
      StreamGrows(disk, op);
      disk := Do(disk, op);
      ops := ops + [op];
    }

    /** open: the path opened for appending, and its size read. */
    method Open(ok: bool, stat: bool) returns (usable: bool)
      requires Sound()
      requires !disk.open
      modifies this`disk, this`ops, this`size
      ensures Sound()
      ensures usable == disk.open == (ok && stat)
      ensures usable ==> size == |Newest(disk)| && disk == Do(old(disk), OpenFile)
      ensures Stream(disk) == Stream(old(disk))
      ensures Renames(ops) == Renames(old(ops))
    {
      if !ok { return false; }
      Step(OpenFile);
      if !stat {
        Step(CloseFile);
        return false;
      }
      size := |Newest(disk)|;
      return true;
    }

    /** write: b whole, or what the file took of it before it refused. */
    method WriteBytes(b: string, took: Option<nat>, words: string) returns (whole: bool)
      requires Sound()
      requires disk.open && size == |Newest(disk)|
      modifies this`disk, this`ops, this`size, this`why
      ensures Sound()
      ensures whole == took.None? && disk.open && size == |Newest(disk)| == old(size) + |Cut(b, took)|
      ensures Stream(disk) == Stream(old(disk)) + Cut(b, took)
      ensures why == (if whole then old(why) else words)
      ensures Renames(ops) == Renames(old(ops))
    {
      Step(Append(Cut(b, took)));
      size := size + |Cut(b, took)|;
      if !took.None? { why := words; }
      whole := took.None?;
    }

    /** drop: p is lost and the wait before the next try starts. */
    method Drop(p: string, now: int, words: string)
      requires given == kept + reported + dropped
      modifies this`failed, this`why, this`dropped, this`given
      ensures failed == Some(now) && why == words && dropped == old(dropped) + |p| && given == old(given) + |p|
    {
      failed, why := Some(now), words;
      dropped := dropped + |p|;
      given := given + |p|;
    }

    /** After the wait: the file opened again if need be, and the loss noted in it. */
    method Retry(luck: Luck) returns (fine: bool)
      requires Sound()
      requires disk.open ==> size == |Newest(disk)|
      modifies this`disk, this`ops, this`size, this`why, this`dropped, this`reported
      ensures Sound()
      ensures fine == (disk.open && luck.note.None?) && (disk.open ==> size == |Newest(disk)|)
      ensures disk.open == (old(disk).open || (luck.open && luck.stat))
      ensures fine ==> dropped == 0 && reported == old(reported) + old(dropped)
      ensures fine ==> Stream(disk) == Stream(old(disk)) + Note(old(dropped), old(why))
      ensures !fine ==> dropped == old(dropped) && reported == old(reported)
      ensures !fine ==> Stream(disk) == Stream(old(disk)) +
                          (if disk.open then Cut(Note(old(dropped), old(why)), luck.note) else "")
      ensures Renames(ops) == Renames(old(ops))
    {
      if !disk.open {
        fine := Open(luck.open, luck.stat);
        if !fine { return; }
      }
      fine := WriteBytes(Note(dropped, why), luck.note, luck.why);
      if fine {
        reported := reported + dropped;
        dropped, why := 0, "";
      }
    }

    /** The rotation: closed, renamed aside, opened again. */
    method Rotate(luck: Luck) returns (fine: bool)
      requires Sound() && disk.open
      modifies this`disk, this`ops, this`size
      ensures Sound()
      ensures fine == disk.open == (luck.open2 && luck.stat2)
      ensures fine ==> size == |Newest(disk)|
      ensures fine && luck.close && luck.rename ==> size == 0
      ensures Stream(disk) == Stream(old(disk))
      ensures Renames(ops) == Renames(old(ops)) + (if luck.close && luck.rename then 1 else 0)
    {
      Step(CloseFile);
      if luck.close && luck.rename { Step(Rename); }
      fine := Open(luck.open2, luck.stat2);
    }

    /** Write is refused while the wait since the last failure runs. */
    ghost predicate Waiting(now: int)
      reads this
    {
      failed.Some? && now - failed.value < LOG_RETRY
    }

    /** What a Write that starts now puts before p: the note of what was lost, after the wait. */
    ghost function Lead(): string
      reads this
    {
      if failed.Some? then Note(dropped, why) else ""
    }

    /** p, on a file that works: after a rotation when p would take it past the limit. */
    method Place(p: string, now: int, luck: Luck)
      requires Sound() && disk.open && size == |Newest(disk)| && failed.None?
      requires given == kept + reported + dropped && dropped == 0
      modifies this
      ensures Valid() && reported == old(reported) && given == old(given) + |p|
      ensures failed.None? ==>
                && Stream(disk) == Stream(old(disk)) + p && kept == old(kept) + |p|
                && (luck.close && luck.rename ==> size <= Max(limit, |p|))
      ensures failed.Some? ==>
                && failed == Some(now) && kept == old(kept) && dropped == |p|
                && Stream(old(disk)) <= Stream(disk) <= Stream(old(disk)) + p
      ensures (luck.open2 && luck.stat2 && luck.write.None?) ==> failed.None?
      ensures Renames(ops) <= Renames(old(ops)) + 1
    {
      if size > 0 && size + |p| > limit {
        var fine := Rotate(luck);
        if !fine {
          Drop(p, now, luck.why);
          return;
        }
      }
      var whole := WriteBytes(p, luck.write, luck.why);
      if whole {
        given, kept := given + |p|, kept + |p|;
      } else {
        Drop(p, now, luck.why);
      }
    }

    /** A Write whose wait is over, or that has none. */
    method Try(p: string, now: int, luck: Luck)
      requires Valid() && !Waiting(now)
      modifies this
      ensures Valid() && given == old(given) + |p|
      ensures failed.None? ==>
                && Stream(disk) == Stream(old(disk)) + old(Lead()) + p
                && kept == old(kept) + |p| && reported == old(reported) + old(dropped)
                && (luck.close && luck.rename ==> size <= Max(limit, |p|))
      ensures failed.Some? ==> failed == Some(now) && kept == old(kept)
      ensures failed.Some? ==> Stream(old(disk)) <= Stream(disk) <= Stream(old(disk)) + old(Lead()) + p
      ensures failed.Some? ==>
                (|| (dropped == old(dropped) + |p| && reported == old(reported))
                 || (dropped == |p| && reported == old(reported) + old(dropped)
                     && Stream(old(disk)) + old(Lead()) <= Stream(disk)))
      ensures (luck.open && luck.stat && luck.note.None? && luck.open2 && luck.stat2 && luck.write.None?) ==>
                failed.None?
      ensures Renames(ops) <= Renames(old(ops)) + 1
    {
      ghost var was, lead := Stream(disk), Lead();
      if failed.Some? {
        failed := None;
        var fine := Retry(luck);
        if !fine {
          PartOf(was, if disk.open then Cut(lead, luck.note) else "", lead, p);
          Drop(p, now, luck.why);
          return;
        }
      }
      assert Stream(disk) == was + lead;
      Place(p, now, luck);
    }

    /**
    Write appends p, rotating first when p would take the file past the limit. It always
    reports p written: p is in the file whole, after the note of everything lost before it,
    or it is counted as lost and the next wait starts.
    */
    method Write(p: string, now: int, luck: Luck) returns (n: nat)
      requires Valid()
      modifies this
      ensures Valid() && n == |p| && given == old(given) + |p|
      ensures old(Waiting(now)) ==>
                disk == old(disk) && failed == old(failed) && dropped == old(dropped) + |p| && kept == old(kept)
      ensures !old(Waiting(now)) && failed.None? ==>
                && Stream(disk) == Stream(old(disk)) + old(Lead()) + p
                && kept == old(kept) + |p| && reported == old(reported) + old(dropped)
                && (luck.close && luck.rename ==> size <= Max(limit, |p|))
      ensures !old(Waiting(now)) && failed.Some? ==>
                && failed == Some(now) && kept == old(kept)
                && Stream(old(disk)) <= Stream(disk) <= Stream(old(disk)) + old(Lead()) + p
                && (|| (dropped == old(dropped) + |p| && reported == old(reported))
                    || (dropped == |p| && reported == old(reported) + old(dropped)
                        && Stream(old(disk)) + old(Lead()) <= Stream(disk)))
      ensures (!old(Waiting(now)) && luck.open && luck.stat && luck.note.None? && luck.open2 && luck.stat2
               && luck.write.None?) ==> failed.None?
      ensures Renames(ops) <= Renames(old(ops)) + 1
    {
      n := |p|;
      if failed.Some? && now - failed.value < LOG_RETRY {
        dropped := dropped + |p|;
        given := given + |p|;
        return;
      }
      Try(p, now, luck);
    }

    /** One call, and its fate. */
    method WriteOne(p: string, now: int, luck: Luck) returns (ghost f: Fate)
      requires Valid()
      modifies this
      ensures Valid() && given == old(given) + |p| && Fit(p, f)
      ensures Stream(disk) == Stream(old(disk)) + Put(p, f)
      ensures kept == old(kept) + (if f.Whole? then |p| else 0) && reported == old(reported) + f.named
    {
      ghost var was, lead, loss, words := Stream(disk), Lead(), dropped, why;
      ghost var waits, works := Waiting(now), failed.None?;
      var n := Write(p, now, luck);
      if waits || failed.Some? {
        f := LostFate(was, Stream(disk), p, words, loss, reported - old(reported));
      } else {
        f := WholeFate(was, Stream(disk), p, lead, words, loss, works);
      }
    }

    /** One call more. */
    method WriteNext(p: string, now: int, luck: Luck, ghost done: seq<string>, ghost fates: seq<Fate>,
                     ghost was: string, ghost from: Tally) returns (ghost more: seq<Fate>)
      requires Valid() && Accounted(done, fates) && Grown(done, fates, was, from, Stream(disk), Tally(given, kept, reported))
      modifies this
      ensures Valid() && Accounted(done + [p], more)
      ensures Grown(done + [p], more, was, from, Stream(disk), Tally(given, kept, reported))
    {
      ghost var before, now_ := Stream(disk), Tally(given, kept, reported);
      ghost var f := WriteOne(p, now, luck);
      OneMoreCall(done, fates, was, from, before, now_, p, f);
      OneMoreFate(done, fates, p, f);
      more := fates + [f];
    }

    /**
    A run of writes: every byte given is of a call that is in the log whole, named by a note in it,
    or pending; the log has just grown by what the calls put there.
    */
    method WriteAll(calls: seq<string>, at: nat -> int, luck: nat -> Luck) returns (ghost fates: seq<Fate>)
      requires Valid()
      modifies this
      ensures Valid() && given == old(given) + |Flat(calls)|
      ensures Accounted(calls, fates)
      ensures Stream(disk) == Stream(old(disk)) + PutBy(calls, fates)
      ensures kept == old(kept) + WholeBytes(calls, fates) && reported == old(reported) + NamedBytes(fates)
      ensures |Flat(calls)| == WholeBytes(calls, fates) + NamedBytes(fates) + dropped - old(dropped)
      ensures failed.None? ==> disk.open && |Flat(calls)| + old(dropped) == WholeBytes(calls, fates) + NamedBytes(fates)
    {
      fates := [];
      ghost var was, from, done := Stream(disk), Tally(given, kept, reported), [];
      for i := 0 to |calls|
        invariant Valid() && done == calls[..i] && Accounted(done, fates)
        invariant Grown(done, fates, was, from, Stream(disk), Tally(given, kept, reported))
      {
        fates := WriteNext(calls[i], at(i), luck(i), done, fates, was, from);
        done := done + [calls[i]];
      }
      assert done == calls;
    }
  }

  lemma WholeFate(was: string, is_: string, p: string, lead: string, why: string, loss: nat, works: bool)
    returns (f: Fate)
    requires is_ == was + lead + p && lead == (if works then "" else Note(loss, why)) && (works ==> loss == 0)
    ensures f == Whole(lead, loss) && Fit(p, f) && is_ == was + Put(p, f)
  {
    f := Whole(lead, loss);
    assert was + lead + p == was + (lead + p);
  }

  lemma LostFate(was: string, is_: string, p: string, why: string, loss: nat, named: nat) returns (f: Fate)
    requires was <= is_ && (named == 0 || (named == loss && was + Note(loss, why) <= is_ <= was + Note(loss, why) + p))
    ensures f.Lost? && f.named == named && Fit(p, f) && is_ == was + Put(p, f)
  {
    f := Lost(is_[|was|..], named);
    if named != 0 {
      var note := Note(loss, why);
      assert is_[|was|..][..|note|] == is_[..|was + note|][|was|..] == note;
      assert was + note + p == was + (note + p);
      assert is_[|was|..] <= note + p by { Suffixed(was, is_[|was|..], note + p); }
    }
  }

  lemma Suffixed(a: string, b: string, c: string)
    requires a + b <= a + c
    ensures b <= c
  {
    assert (a + b)[|a|..] == b && (a + c)[|a|..] == c;
    assert (a + c)[..|a + b|] == a + b;
    assert c[..|b|] == (a + c)[..|a + b|][|a|..];
  }

  lemma OneMoreFate(calls: seq<string>, fates: seq<Fate>, p: string, f: Fate)
    requires Accounted(calls, fates) && Fit(p, f)
    ensures Accounted(calls + [p], fates + [f])
  {
  }

  lemma OneMoreCall(calls: seq<string>, fates: seq<Fate>, was: string, from: Tally, is_: string, tally: Tally, p: string, f: Fate)
    requires Grown(calls, fates, was, from, is_, tally)
    ensures Grown(calls + [p], fates + [f], was, from, is_ + Put(p, f),
                  Tally(tally.given + |p|, tally.kept + (if f.Whole? then |p| else 0), tally.reported + f.named))
  {
    var put := PutBy(calls, fates);
    OneMorePut(calls, fates, p, f);
    assert was + put + Put(p, f) == was + (put + Put(p, f));
  }

  lemma OneMorePut(calls: seq<string>, fates: seq<Fate>, p: string, f: Fate)
    requires |calls| == |fates|
    ensures Flat(calls + [p]) == Flat(calls) + p
    ensures PutBy(calls + [p], fates + [f]) == PutBy(calls, fates) + Put(p, f)
    ensures WholeBytes(calls + [p], fates + [f]) == WholeBytes(calls, fates) + if f.Whole? then |p| else 0
    ensures NamedBytes(fates + [f]) == NamedBytes(fates) + f.named
  {
    assert (calls + [p])[..|calls|] == calls && (fates + [f])[..|fates|] == fates;
  }

  lemma PartOf(a: string, b: string, whole: string, c: string)
    requires b <= whole
    ensures a <= a + b <= a + whole + c
  {
    assert a + whole + c == (a + b) + (whole[|b|..] + c);
  }
}
