/**
The home's clock as a node sees it (api/node_clock.go), and which reads the node's copy of
the home's database may answer (api/node_bootstrap.go). Times are ticks: `t` on this
machine's clock is `t + ahead` on the home's, for one unknown `ahead` (equal rates).
*/
module HomeClock {

  datatype Option<T> = None | Some(value: T)

  /** Nanoseconds: an offset is measured, and a verdict on the copy read, at most this often. */
  const HOME_CLOCK_EVERY := 30_000_000_000
  const COPY_FRESH_EVERY := 2_000_000_000

  /** The offset a measure stores: the home's answer against the middle of the call. */
  function Measured(t0: int, home: int, t1: int): int {
    home - (t0 + (t1 - t0) / 2)
  }

  /** The offset stored when the home read its clock at asked. */
  function Stored(t0: int, asked: int, t1: int, ahead: int): int {
    Measured(t0, asked + ahead, t1)
  }

  /** Half the call, rounded up. */
  function Error(t0: int, t1: int): int {
    (t1 - t0 + 1) / 2
  }

  predicate Within(offset: int, ahead: int, e: int) { -e <= offset - ahead <= e }

  /** Wherever in the call the home read its clock, the offset is off by half the call at most. */
  lemma MeasureWithin(t0: int, asked: int, t1: int, ahead: int)
    requires t0 <= asked <= t1
    ensures Within(Measured(t0, asked + ahead, t1), ahead, Error(t0, t1))
  {
  }

  /** And no smaller bound holds: a home that answers at the very end is off by just that. */
  lemma MeasureTight(t0: int, t1: int, ahead: int, e: int)
    requires t0 <= t1
    ensures (forall asked :: t0 <= asked <= t1 ==> Within(Stored(t0, asked, t1, ahead), ahead, e))
            <==> Error(t0, t1) <= e
  {
    assert Stored(t0, t1, t1, ahead) - ahead == Error(t0, t1);
    forall asked | t0 <= asked <= t1 ensures Within(Stored(t0, asked, t1, ahead), ahead, Error(t0, t1)) {
      MeasureWithin(t0, asked, t1, ahead);
    }
  }

  /** The verdict: the copy's beat is no older than the limit on the home's clock as seen here. */
  predicate Fresh(now: int, offset: int, synced: int, limit: int) {
    now + offset - synced <= limit
  }

  /**
  A fresh verdict bounds how far the copy truly is behind exactly as well as the offset is
  known: by the limit and e, for every beat and moment, iff the offset is at most e short.
  */
  lemma VerdictAsGoodAsOffset(offset: int, ahead: int, limit: int, e: int)
    ensures (forall now, synced :: Fresh(now, offset, synced, limit) ==> now + ahead - synced <= limit + e)
            <==> ahead - offset <= e
  {
    if forall now, synced :: Fresh(now, offset, synced, limit) ==> now + ahead - synced <= limit + e {
      assert Fresh(0, offset, offset - limit, limit);
    }
  }

  /** Where the offset is from: nowhere, kept from before a restart and off by e at most, or a measure. */
  datatype Source = Zero | Kept(saved: int, e: int) | Asked(t0: int, home: int, t1: int)

  predicate Sound(source: Source, ahead: int) {
    match source
    case Zero => true
    case Kept(saved, e) => Within(saved, ahead, e)
    case Asked(t0, home, t1) => t0 <= home - ahead <= t1
  }

  function OffsetOf(source: Source): int {
    match source
    case Zero => 0
    case Kept(saved, _) => saved
    case Asked(t0, home, t1) => Measured(t0, home, t1)
  }

  function ErrorOf(source: Source): int {
    match source
    case Zero => 0
    case Kept(_, e) => e
    case Asked(t0, _, t1) => Error(t0, t1)
  }

  lemma SoundWithin(source: Source, ahead: int)
    requires Sound(source, ahead) && !source.Zero?
    ensures Within(OffsetOf(source), ahead, ErrorOf(source))
  {
    if source.Asked? { MeasureWithin(source.t0, source.home - ahead, source.t1, ahead); }
  }

  /** What one request finds and does: when it comes, the copy, the measure, the rule. */
  datatype Look = Look(
    at: int,                 // under the lock
    local: bool,             // there is a copy to read
    synced: Option<int>,     // its beat (the home's clock); None: it could not be read
    t0: int, home: Option<int>, t1: int,  // the measure
    now: int,                // the home's clock is read
    limit: int)              // the rule's lag

  /** A look in order of time, its home's answer true. */
  predicate InTime(look: Look, ahead: int) {
    && look.at <= look.t0 <= look.t1 <= look.now
    && (look.home.Some? ==> look.t0 <= look.home.value - ahead <= look.t1)
  }

  /** And its beat one the copy has. */
  predicate Plausible(look: Look, ahead: int, has: int) {
    InTime(look, ahead) && (look.synced.Some? ==> look.synced.value <= has)
  }

  // ---------------------------------------------------------------------
  // What the looks make known
  // ---------------------------------------------------------------------

  /** The offset's source after a measure, which is made when the last one is homeClockEvery old. */
  function Ask(source: Source, look: Look): Source {
    if (source.Asked? && look.at - source.t1 < HOME_CLOCK_EVERY) || look.home.None? then source
    else Asked(look.t0, look.home.value, look.t1)
  }

  /** A verdict: the look that made it, and where the offset then was from. */
  datatype Verdict = Verdict(look: Look, source: Source)

  /** The copy may be read by it: its beat was there to read, and fresh. */
  predicate Allows(v: Verdict) {
    v.look.local && v.look.synced.Some? && Fresh(v.look.now, OffsetOf(v.source), v.look.synced.value, v.look.limit)
  }

  datatype Known = Known(source: Source, judged: Option<Verdict>)

  predicate Due(k: Known, now: int) { k.judged.None? || now - k.judged.value.look.at >= COPY_FRESH_EVERY }

  /** A new verdict when the last is copyFreshEvery old, the offset measured first if there is a copy. */
  function Looked(k: Known, look: Look): Known {
    if !Due(k, look.at) then k
    else
      var source := if look.local then Ask(k.source, look) else k.source;
      Known(source, Some(Verdict(look, source)))
  }

  predicate MayRead(k: Known) { k.judged.Some? && Allows(k.judged.value) }

  /** What is known is true, of a copy that holds every home change up to has. */
  predicate Truthful(k: Known, ahead: int, has: int) {
    && Sound(k.source, ahead)
    && (k.judged.Some? ==> Plausible(k.judged.value.look, ahead, has) && Sound(k.judged.value.source, ahead))
  }

  /** When a read is let through: with a new verdict once that is made. */
  function Decided(k: Known, look: Look): int { if Due(k, look.at) then look.now else look.at }

  /** How far behind a read of a verdict may be. */
  function Slack(v: Verdict): int { v.look.limit + COPY_FRESH_EVERY + ErrorOf(v.source) }

  /** A read let through by a verdict made with a known offset sees all but the last Slack of the home. */
  lemma LookedIsNew(k: Known, look: Look, ahead: int, has: int)
    requires Truthful(k, ahead, has) && Plausible(look, ahead, has)
    ensures var after := Looked(k, look);
            && Truthful(after, ahead, has)
            && (MayRead(after) && !after.judged.value.source.Zero? ==>
                  Decided(k, look) + ahead - Slack(after.judged.value) <= has)
  {
    var after := Looked(k, look);
    if !after.judged.value.source.Zero? { SoundWithin(after.judged.value.source, ahead); }
  }

  /** A request: what it finds, whether the home is away, and how far the copy then is. */
  datatype Visit = Visit(look: Look, down: bool, has: int)

  /** The copy only gets more; each look is true of the copy it finds. */
  predicate InOrder(visits: seq<Visit>, ahead: int, has: int) {
    visits == [] ||
    (var n := |visits| - 1;
     && InOrder(visits[..n], ahead, has)
     && Plausible(visits[n].look, ahead, visits[n].has)
     && HasAfter(visits[..n], has) <= visits[n].has)
  }

  function HasAfter(visits: seq<Visit>, has: int): int {
    if visits == [] then has else visits[|visits| - 1].has
  }

  /** What is known after them; while the home is away nothing is looked at. */
  function After(k: Known, visits: seq<Visit>): Known {
    if visits == [] then k
    else
      var v := visits[|visits| - 1];
      if v.down then After(k, visits[..|visits| - 1]) else Looked(After(k, visits[..|visits| - 1]), v.look)
  }

  /** The read of the last visit goes to the copy. */
  predicate Through(k: Known, visits: seq<Visit>)
    requires visits != []
  {
    visits[|visits| - 1].down || MayRead(After(k, visits))
  }

  /** The looks those visits made, while the home answered. */
  function Looks(visits: seq<Visit>): set<Look> {
    set i | 0 <= i < |visits| && !visits[i].down :: visits[i].look
  }

  /** The offset was there at first, or one of these looks measured it. */
  predicate SourceIn(source: Source, first: Source, looks: set<Look>) {
    source == first || exists look :: look in looks && look.home.Some? && source == Asked(look.t0, look.home.value, look.t1)
  }

  lemma {:induction false} TruthfulAfter(k: Known, visits: seq<Visit>, ahead: int, has: int)
    requires Truthful(k, ahead, has) && InOrder(visits, ahead, has)
    ensures has <= HasAfter(visits, has) && Truthful(After(k, visits), ahead, HasAfter(visits, has))
  {
    if visits != [] {
      var n := |visits| - 1;
      TruthfulAfter(k, visits[..n], ahead, has);
      if !visits[n].down {
        LookedIsNew(After(k, visits[..n]), visits[n].look, ahead, visits[n].has);
      }
    }
  }

  lemma {:induction false} KnownFromLooks(k: Known, visits: seq<Visit>)
    requires k.judged.None?
    ensures var after := After(k, visits);
            && SourceIn(after.source, k.source, Looks(visits))
            && (after.judged.Some? ==>
                  && after.judged.value.look in Looks(visits)
                  && SourceIn(after.judged.value.source, k.source, Looks(visits)))
  {
    if visits != [] {
      var n := |visits| - 1;
      KnownFromLooks(k, visits[..n]);
      LooksGrow(visits);
      if !visits[n].down { assert visits[n].look in Looks(visits); }
    }
  }

  lemma LooksGrow(visits: seq<Visit>)
    requires visits != []
    ensures Looks(visits[..|visits| - 1]) <= Looks(visits)
  {
    var n := |visits| - 1;
    forall look | look in Looks(visits[..n]) ensures look in Looks(visits) {
      var i :| 0 <= i < n && !visits[..n][i].down && visits[..n][i].look == look;
      assert visits[i].look == look && !visits[i].down;
    }
  }

  /**
  Any number of reads, the copy following the home meanwhile: one let through while the home
  answers, by a verdict made with a known offset, sees every home change but those of the last
  limit, copyFreshEvery and error. The limit is of a look that was made, and the error half the
  call of the look that measured, or of the offset kept from before.
  */
  lemma ReadsAreNew(k: Known, visits: seq<Visit>, ahead: int, has: int)
    requires k.judged.None? && Sound(k.source, ahead) && InOrder(visits, ahead, has)
    requires visits != [] && !visits[|visits| - 1].down && Through(k, visits)
    ensures var n, v := |visits| - 1, After(k, visits).judged.value;
            && v.look in Looks(visits) && SourceIn(v.source, k.source, Looks(visits)) && Allows(v)
            && (!v.source.Zero? ==>
                  Decided(After(k, visits[..n]), visits[n].look) + ahead - Slack(v) <= visits[n].has)
  {
    var n := |visits| - 1;
    TruthfulAfter(k, visits[..n], ahead, has);
    LookedIsNew(After(k, visits[..n]), visits[n].look, ahead, visits[n].has);
    KnownFromLooks(k, visits);
  }

  /**
  A look that is to make a verdict, with a copy and a home that answers, measures the home's clock
  unless that was done homeClockEvery ago at most; the verdict is made with that measure.
  */
  lemma LookMeasures(k: Known, look: Look)
    requires Due(k, look.at) && look.local && look.home.Some?
    ensures var after := Looked(k, look);
            && !after.source.Zero? && after.judged == Some(Verdict(look, after.source))
            && (!(k.source.Asked? && look.at - k.source.t1 < HOME_CLOCK_EVERY) ==>
                  after.source == Asked(look.t0, look.home.value, look.t1))
  {
  }

  /** A verdict is made anew by the first look 2 s after the last one's and is taken until then; with no copy nothing is measured. */
  lemma VerdictLasts(k: Known, look: Look)
    ensures k.judged.Some? && look.at - k.judged.value.look.at < 2_000_000_000 ==> Looked(k, look) == k
    ensures k.judged.None? || look.at - k.judged.value.look.at >= 2_000_000_000 ==>
              Looked(k, look).judged == Some(Verdict(look, Looked(k, look).source))
    ensures !look.local ==> Looked(k, look).source == k.source && !Allows(Verdict(look, k.source))
  {
  }

  lemma {:induction false} StaysKnown(k: Known, visits: seq<Visit>)
    requires k.judged.Some? && !k.source.Zero? && !k.judged.value.source.Zero?
    ensures var after := After(k, visits);
            after.judged.Some? && !after.source.Zero? && !after.judged.value.source.Zero?
  {
    if visits != [] { StaysKnown(k, visits[..|visits| - 1]); }
  }

  /**
  So once one visit was to make a verdict, with a copy and a home that answered its measure, every
  read that goes to the copy after it while the home answers sees all but the last Slack of the home.
  */
  lemma ReadsAreNewOnceMeasured(k: Known, before: seq<Visit>, v: Visit, after: seq<Visit>, ahead: int, has: int)
    requires Truthful(k, ahead, has)
    requires !v.down && v.look.local && v.look.home.Some? && Due(After(k, before), v.look.at)
    requires var visits := before + [v] + after;
             InOrder(visits, ahead, has) && !visits[|visits| - 1].down && Through(k, visits)
    ensures var visits := before + [v] + after;
            var n := |visits| - 1;
            Decided(After(k, visits[..n]), visits[n].look) + ahead - Slack(After(k, visits).judged.value) <= visits[n].has
  {
    var visits := before + [v] + after;
    var n := |visits| - 1;
    TruthfulAfter(k, visits[..n], ahead, has);
    LookedIsNew(After(k, visits[..n]), visits[n].look, ahead, visits[n].has);
    assert (before + [v])[..|before|] == before;
    LookMeasures(After(k, before), v.look);
    StaysKnown(After(k, before + [v]), after);
    AfterJoin(k, before + [v], after);
  }

  lemma {:induction false} AfterJoin(k: Known, a: seq<Visit>, b: seq<Visit>)
    ensures After(k, a + b) == After(After(k, a), b)
  {
    if b == [] {
      assert a + b == a;
    } else {
      var n := |b| - 1;
      AfterJoin(k, a, b[..n]);
      assert (a + b)[..|a + b| - 1] == a + b[..n];
    }
  }

  /** Whatever the home's clock, a verdict made with that offset and limit allows nothing staler than that. */
  ghost predicate BoundedBy(source: Source, limit: int, slack: int) {
    forall ahead: int, look: Look, has: int ::
      Sound(source, ahead) && Plausible(look, ahead, has) && look.limit == limit && Allows(Verdict(look, source)) ==>
        look.now + ahead - slack <= has
  }

  /** A verdict bounds anything exactly when its offset was measured or kept: an offset never known does not. */
  lemma BoundedIffKnown(source: Source, limit: int)
    ensures (exists slack :: BoundedBy(source, limit, slack)) <==> !source.Zero?
    ensures !source.Zero? ==> BoundedBy(source, limit, limit + ErrorOf(source))
  {
    if source.Zero? {
      forall slack ensures !BoundedBy(source, limit, slack) {
        var look := Look(0, true, Some(-limit), 0, None, 0, 0, limit);
        var ahead := slack - limit + 1;
        assert Sound(source, ahead) && Plausible(look, ahead, -limit) && Allows(Verdict(look, source));
      }
    } else {
      forall ahead: int, look: Look, has: int
        | Sound(source, ahead) && Plausible(look, ahead, has) && look.limit == limit && Allows(Verdict(look, source))
        ensures look.now + ahead - (limit + ErrorOf(source)) <= has
      {
        SoundWithin(source, ahead);
      }
      assert BoundedBy(source, limit, limit + ErrorOf(source));
    }
  }

  // ---------------------------------------------------------------------
  // homeClock and copyFreshness
  // ---------------------------------------------------------------------

  class Clock {
    var offset: int
    var at: Option<int>   // when it was last measured

    ghost const ahead: int
    ghost var source: Source

    ghost predicate Valid()
      reads this
    {
      Sound(source, ahead) && offset == OffsetOf(source) && at == if source.Asked? then Some(source.t1) else None
    }

    constructor (ghost truth: int)
      ensures Valid() && at == None && offset == 0 && source == Zero && ahead == truth
    {
      offset, at := 0, None;
      ahead, source := truth, Zero;
    }

    /** The offset kept from before a restart is taken until one is measured. */
    method KeepAt(saved: Option<int>, ghost e: int)
      requires Valid() && (saved.Some? ==> Within(saved.value, ahead, e))
      modifies this
      ensures Valid() && at == old(at)
      ensures source == if old(at).Some? || saved.None? then old(source) else Kept(saved.value, e)
    {
      if saved.Some? && at.None? {
        offset := saved.value;
        source := Kept(saved.value, e);
      }
    }

    /**
    measure, when it is due: the home answers at a moment of the call (home: its clock then),
    or does not.
    */
    method Measure(look: Look)
      requires Valid() && InTime(look, ahead)
      modifies this
      ensures Valid() && source == Ask(old(source), look)
      ensures (old(at).Some? && look.at - old(at).value < HOME_CLOCK_EVERY) || look.home.None? ==>
                offset == old(offset) && at == old(at)
      ensures !(old(at).Some? && look.at - old(at).value < HOME_CLOCK_EVERY) && look.home.Some? ==>
                && offset == Measured(look.t0, look.home.value, look.t1) && at == Some(look.t1)
                && Within(offset, ahead, Error(look.t0, look.t1))
    {
      if at.Some? && look.at - at.value < HOME_CLOCK_EVERY { return; }
      if look.home.None? { return; }
      MeasureWithin(look.t0, look.home.value - ahead, look.t1, ahead);
      offset, at := Measured(look.t0, look.home.value, look.t1), Some(look.t1);
      source := Asked(look.t0, look.home.value, look.t1);
    }
  }

  class Copy {
    const clock: Clock
    var at: Option<int>
    var current: bool
    var synced: int
    var said: bool

    ghost var has: int       // the copy holds every home change up to here (the home's clock)
    ghost var judged: Option<Verdict>

    ghost function Now(): Known
      reads this, clock
    {
      Known(clock.source, judged)
    }

    ghost predicate Valid()
      reads this, clock
    {
      && clock.Valid() && Truthful(Now(), clock.ahead, has)
      && at == (if judged.Some? then Some(judged.value.look.at) else None)
      && current == MayRead(Now())
    }

    constructor (c: Clock, ghost upTo: int)
      requires c.Valid()
      ensures Valid() && clock == c && at == None && !current && judged == None && has == upTo
    {
      clock := c;
      at, current, synced, said := None, false, 0, false;
      has, judged := upTo, None;
    }

    /** Every change the home made up to then is in the copy. */
    ghost predicate SeesAllUpTo(then_: int)
      reads this
    {
      then_ <= has
    }

    /** The copy applies more of the home's changes. */
    ghost method Applies(upTo: int)
      requires Valid() && has <= upTo
      modifies this`has
      ensures Valid() && has == upTo
    {
      has := upTo;
    }

    /** copyFresh: the verdict, read again once it is copyFreshEvery old. */
    method CopyFresh(look: Look) returns (ok: bool)
      requires Valid() && Plausible(look, clock.ahead, has)
      modifies this, clock
      ensures Valid() && has == old(has) && Now() == Looked(old(Now()), look)
      ensures ok == current == MayRead(Now())
      ensures old(Due(Now(), look.at)) ==>
                && at == Some(look.at) && judged == Some(Verdict(look, clock.source))
                && (ok <==> look.local && look.synced.Some? && Fresh(look.now, clock.offset, look.synced.value, look.limit))
      ensures old(Due(Now(), look.at)) && look.local && look.home.Some? ==>
                && !judged.value.source.Zero?
                && (!(old(clock.at).Some? && look.at - old(clock.at).value < HOME_CLOCK_EVERY) ==>
                      clock.offset == Measured(look.t0, look.home.value, look.t1) && clock.at == Some(look.t1))
      ensures ok && !judged.value.source.Zero? ==>
                SeesAllUpTo(Decided(old(Now()), look) + clock.ahead - Slack(judged.value))
    {
      LookedIsNew(Now(), look, clock.ahead, has);
      if at.Some? && look.at - at.value < COPY_FRESH_EVERY { return current; }
      at := Some(look.at);
      if !look.local {
        current, judged := false, Some(Verdict(look, clock.source));
        return false;
      }
      clock.Measure(look);
      judged := Some(Verdict(look, clock.source));
      match look.synced {
        case None => current := false;
        case Some(s) =>
          synced := s;
          current := Fresh(look.now, clock.offset, s, look.limit);
      }
      said := !current;
      ok := current;
    }

    /**
    copyMayRead. While the home does not answer every read goes to the copy and nothing is looked
    at; while it does, those of a verdict that allows it, and these see every home change older
    than the rule's lag, copyFreshEvery and the offset's error together.
    */
    method CopyMayRead(homeDown: bool, look: Look) returns (ok: bool)
      requires Valid() && Plausible(look, clock.ahead, has)
      modifies this, clock
      ensures Valid() && has == old(has)
      ensures Now() == if homeDown then old(Now()) else Looked(old(Now()), look)
      ensures ok <==> homeDown || MayRead(Now())
      ensures ok && !homeDown && !judged.value.source.Zero? ==>
                SeesAllUpTo(Decided(old(Now()), look) + clock.ahead - Slack(judged.value))
    {
      if homeDown { return true; }
      ok := CopyFresh(look);
    }
  }

  /** Any number of reads, the copy following the home between them. */
  method ManyReads(copy: Copy, visits: seq<Visit>) returns (through: seq<bool>)
    requires copy.Valid() && InOrder(visits, copy.clock.ahead, copy.has)
    modifies copy, copy.clock
    ensures copy.Valid() && copy.Now() == After(old(copy.Now()), visits) && copy.has == HasAfter(visits, old(copy.has))
    ensures |through| == |visits|
    ensures forall i :: 0 <= i < |visits| ==> (through[i] <==> Through(old(copy.Now()), visits[..i + 1]))
  {
    through := [];
    ghost var k, has := copy.Now(), copy.has;
    for i := 0 to |visits|
      invariant copy.Valid() && |through| == i
      invariant copy.Now() == After(k, visits[..i]) && copy.has == HasAfter(visits[..i], has)
      invariant forall j :: 0 <= j < i ==> (through[j] <==> Through(k, visits[..j + 1]))
    {
      NextInOrder(k, visits, copy.clock.ahead, has, i);
      copy.Applies(visits[i].has);
      var ok := copy.CopyMayRead(visits[i].down, visits[i].look);
      assert ok <==> Through(k, visits[..i + 1]);
      through := through + [ok];
    }
    assert visits[..|visits|] == visits;
  }

  lemma NextInOrder(k: Known, visits: seq<Visit>, ahead: int, has: int, i: nat)
    requires i < |visits| && InOrder(visits, ahead, has)
    ensures Plausible(visits[i].look, ahead, visits[i].has) && HasAfter(visits[..i], has) <= visits[i].has
    ensures After(k, visits[..i + 1]) ==
              if visits[i].down then After(k, visits[..i]) else Looked(After(k, visits[..i]), visits[i].look)
  {
    InOrderUpTo(visits, ahead, has, i + 1);
    assert visits[..i + 1][..i] == visits[..i];
  }

  lemma {:induction false} InOrderUpTo(visits: seq<Visit>, ahead: int, has: int, i: nat)
    requires i <= |visits| && InOrder(visits, ahead, has)
    ensures InOrder(visits[..i], ahead, has)
  {
    if i < |visits| {
      var n := |visits| - 1;
      InOrderUpTo(visits[..n], ahead, has, i);
      assert visits[..n][..i] == visits[..i];
    } else {
      assert visits[..i] == visits;
    }
  }
}
