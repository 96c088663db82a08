/**
The load test's stop rules (cloud/loadtest/rules.go): a step fails once a rule has held,
sample after sample, for Hold.
*/
module StopRules {
  import opened Decimal

  datatype Sample = Sample(at: int, cpu: real, mem: real, addedP95: int, stallRate: real, dropped: int)

  datatype Rules = Rules(cpu: real, mem: real, addedP95: int, stall: real, hold: int)

  /** The numbers of a message, as fmt prints them after the rule's first word. */
  type Format = (Rules, Sample, nat) -> string

  function Message(word: string, rest: string): string { word + " " + rest }

  /** b says that s breaks a rule. */
  predicate Says(r: Rules, s: Sample, fmt: Format, b: string) {
    || (s.cpu > r.cpu && b == Message("cpu", fmt(r, s, 0)))
    || (s.mem > r.mem && b == Message("memory", fmt(r, s, 1)))
    || (s.addedP95 > r.addedP95 && b == Message("p95", fmt(r, s, 2)))
    || (s.stallRate > r.stall && b == Message("stalls", fmt(r, s, 3)))
    || (s.dropped > 0 && b == Message(Digits(s.dropped), "tunnels dropped"))
  }

  function Plus(c: bool, b: string, rest: seq<string>): (out: seq<string>)
    ensures forall x :: x in out <==> (c && x == b) || x in rest
  {
    if c then [b] + rest else rest
  }

  /** The rules s breaks, in words. */
  function Broken(r: Rules, s: Sample, fmt: Format): (out: seq<string>)
    ensures forall b :: b in out <==> Says(r, s, fmt, b)
  {
    Plus(s.cpu > r.cpu, Message("cpu", fmt(r, s, 0)),
      Plus(s.mem > r.mem, Message("memory", fmt(r, s, 1)),
        Plus(s.addedP95 > r.addedP95, Message("p95", fmt(r, s, 2)),
          Plus(s.stallRate > r.stall, Message("stalls", fmt(r, s, 3)),
            if s.dropped > 0 then [Message(Digits(s.dropped), "tunnels dropped")] else []))))
  }

  /** A message's first word. */
  function Kind(b: string): string {
    if b == "" || b[0] == ' ' then "" else [b[0]] + Kind(b[1..])
  }

  lemma {:induction false} KindOfWord(w: string, rest: string)
    requires ' ' !in w
    ensures Kind(Message(w, rest)) == w && Message(w, rest) != ""
  {
    if w == "" {
      assert Message(w, rest) == " " + rest;
    } else {
      assert Message(w, rest)[1..] == Message(w[1..], rest);
      KindOfWord(w[1..], rest);
    }
  }

  /** s breaks the rule named k. */
  predicate Breaks(r: Rules, s: Sample, k: string) {
    || (k == "cpu" && s.cpu > r.cpu)
    || (k == "memory" && s.mem > r.mem)
    || (k == "p95" && s.addedP95 > r.addedP95)
    || (k == "stalls" && s.stallRate > r.stall)
    || (s.dropped > 0 && k == Digits(s.dropped))
  }

  /** The kind of a message is a rule s breaks; a drop's kind is its count. */
  lemma KindOfMessage(r: Rules, s: Sample, fmt: Format, b: string)
    requires Says(r, s, fmt, b)
    ensures b != "" && Breaks(r, s, Kind(b))
  {
    if s.cpu > r.cpu && b == Message("cpu", fmt(r, s, 0)) { KindOfWord("cpu", fmt(r, s, 0)); }
    else if s.mem > r.mem && b == Message("memory", fmt(r, s, 1)) { KindOfWord("memory", fmt(r, s, 1)); }
    else if s.addedP95 > r.addedP95 && b == Message("p95", fmt(r, s, 2)) { KindOfWord("p95", fmt(r, s, 2)); }
    else if s.stallRate > r.stall && b == Message("stalls", fmt(r, s, 3)) { KindOfWord("stalls", fmt(r, s, 3)); }
    else { KindOfWord(Digits(s.dropped), "tunnels dropped"); }
  }

  /** Every rule s breaks has a message. */
  lemma MessageOfKind(r: Rules, s: Sample, fmt: Format, k: string) returns (b: string)
    requires Breaks(r, s, k)
    ensures Says(r, s, fmt, b) && Kind(b) == k
  {
    if k == "cpu" && s.cpu > r.cpu { b := Message(k, fmt(r, s, 0)); KindOfWord(k, fmt(r, s, 0)); }
    else if k == "memory" && s.mem > r.mem { b := Message(k, fmt(r, s, 1)); KindOfWord(k, fmt(r, s, 1)); }
    else if k == "p95" && s.addedP95 > r.addedP95 { b := Message(k, fmt(r, s, 2)); KindOfWord(k, fmt(r, s, 2)); }
    else if k == "stalls" && s.stallRate > r.stall { b := Message(k, fmt(r, s, 3)); KindOfWord(k, fmt(r, s, 3)); }
    else { b := Message(k, "tunnels dropped"); KindOfWord(k, "tunnels dropped"); }
  }

  /** Where the last unbroken stretch of samples that break k begins (the end: none). */
  function Start(r: Rules, trace: seq<Sample>, k: string): (i: nat)
    ensures i <= |trace|
    ensures forall j :: i <= j < |trace| ==> Breaks(r, trace[j], k)
    ensures i > 0 ==> !Breaks(r, trace[i - 1], k)
  {
    var n := |trace|;
    if n == 0 || !Breaks(r, trace[n - 1], k) then n else Start(r, trace[..n - 1], k)
  }

  /** The rule k has now held, sample after sample, for Hold. */
  ghost predicate Held(r: Rules, trace: seq<Sample>, k: string) {
    var i := Start(r, trace, k);
    i < |trace| && trace[|trace| - 1].at - trace[i].at >= r.hold
  }

  /** since as it must be after the trace: each broken rule with the first sample of its stretch. */
  ghost predicate Follows(since: map<string, int>, r: Rules, trace: seq<Sample>) {
    forall k :: (k in since <==> Start(r, trace, k) < |trace|) &&
                (k in since ==> since[k] == trace[Start(r, trace, k)].at)
  }

  class Watch {
    const rules: Rules
    const fmt: Format
    var since: map<string, int>

    ghost var trace: seq<Sample>
    ghost var tripped: bool

    ghost predicate Valid()
      reads this
    {
      !tripped ==> Follows(since, rules, trace)
    }

    constructor (r: Rules, f: Format)
      ensures Valid() && rules == r && fmt == f && trace == [] && !tripped
    {
      rules, fmt := r, f;
      since, trace, tripped := map[], [], false;
    }

    /** Messages by kind (the last one of a kind). */
    method ByKind(all: seq<string>) returns (now: map<string, string>)
      ensures forall b :: b in all ==> Kind(b) in now
      ensures forall k :: k in now ==> now[k] in all && Kind(now[k]) == k
    {
      now := map[];
      for i := 0 to |all|
        invariant forall j :: 0 <= j < i ==> Kind(all[j]) in now
        invariant forall k :: k in now ==> now[k] in all && Kind(now[k]) == k
      {
        now := now[Kind(all[i]) := all[i]];
      }
    }

    /** The rules s breaks, by kind. */
    method Now(s: Sample) returns (now: map<string, string>)
      ensures forall k :: k in now <==> Breaks(rules, s, k)
      ensures forall k :: k in now ==> now[k] in Broken(rules, s, fmt) && Kind(now[k]) == k && now[k] != ""
    {
      now := ByKind(Broken(rules, s, fmt));
      forall k | Breaks(rules, s, k) ensures k in now {
        var b := MessageOfKind(rules, s, fmt, k);
      }
      forall k | k in now ensures Breaks(rules, s, k) && now[k] != "" { KindOfMessage(rules, s, fmt, now[k]); }
    }

    /** The rules that let go: their clock starts again next time. */
    method LetGo(now: map<string, string>)
      modifies this`since
      ensures since == map k | k in old(since) && k in now :: old(since)[k]
    {
      var rest := since.Keys;
      while rest != {}
        invariant rest <= old(since).Keys
        invariant since == map k | k in old(since) && (k in rest || k in now) :: old(since)[k]
        decreases |rest|
      {
        var k :| k in rest;
        rest := rest - {k};
        if k !in now { since := since - {k}; }
      }
    }

    /**
    Add takes the next sample. Until the first trip it answers a rule exactly when some rule
    has held for Hold, and that rule's message is what it answers.
    */
    method Add(s: Sample) returns (out: string)
      requires Valid()
      modifies this
      ensures Valid() && trace == old(trace) + [s]
      ensures tripped <==> old(tripped) || out != ""
      ensures !old(tripped) ==> (out != "" <==> exists k :: Held(rules, trace, k))
      ensures !old(tripped) && out != "" ==> out in Broken(rules, s, fmt) && Held(rules, trace, Kind(out))
    {
      var now := Now(s);
      LetGo(now);
      ghost var was, before := trace, old(since);
      trace := trace + [s];
      ghost var first := SinceAfter(rules, was, s, now.Keys);
      if !tripped { Continues(rules, was, s, before, since, first); }
      ghost var which;
      out, which := Scan(now, s.at, first);
    }

    /**
    The rules that hold now: those new start their clock, and one held for Hold is answered.
    first is when each began to hold.
    */
    method Scan(now: map<string, string>, at: int, ghost first: map<string, int>)
      returns (out: string, ghost which: string)
      requires first.Keys == now.Keys && forall k :: k in now ==> now[k] != ""
      requires !tripped ==> forall k :: k in since ==> k in first && since[k] == first[k]
      requires !tripped ==> forall k :: k in first && k !in since ==> first[k] == at
      modifies this`since, this`tripped
      ensures tripped <==> old(tripped) || out != ""
      ensures !old(tripped) && out == "" ==> since == first && forall k :: k in first ==> at - first[k] < rules.hold
      ensures out != "" ==> which in now && out == now[which]
      ensures !old(tripped) && out != "" ==> at - first[which] >= rules.hold
    {
      var rest := now.Keys;
      out, which := "", "";
      while rest != {}
        invariant rest <= now.Keys && tripped == old(tripped)
        invariant !tripped ==> forall k :: Clocked(since, first, rest, at, rules.hold, k)
        decreases |rest|
      {
        var k :| k in rest;
        ghost var was, left := since, rest;
        assert !tripped ==> Clocked(was, first, left, at, rules.hold, k);
        rest := rest - {k};
        if k !in since { since := since[k := at]; }
        if at - since[k] >= rules.hold {
          tripped := true;
          return now[k], k;
        }
        forall j | !tripped ensures Clocked(since, first, rest, at, rules.hold, j) {
          assert Clocked(was, first, left, at, rules.hold, j);
        }
      }
      forall k | !tripped && (k in first || k in since)
        ensures k in first && k in since && since[k] == first[k] && at - first[k] < rules.hold
      {
        assert Clocked(since, first, rest, at, rules.hold, k);
      }
    }
  }

  /** A rule in the middle of Add's loop; rest: those it has not come to. */
  predicate Clocked(since: map<string, int>, first: map<string, int>, rest: set<string>, at: int, hold: int, k: string) {
    && (k in since ==> k in first && since[k] == first[k])
    && (k in first && k !in since ==> k in rest && first[k] == at)
    && (k in first && k !in rest ==> at - first[k] < hold)
  }

  /** When each rule s breaks began to hold. */
  ghost function SinceAfter(r: Rules, was: seq<Sample>, s: Sample, kinds: set<string>): (first: map<string, int>)
    requires forall k :: k in kinds <==> Breaks(r, s, k)
    ensures first.Keys == kinds && Follows(first, r, was + [s])
    ensures forall k :: Held(r, was + [s], k) <==> k in first && s.at - first[k] >= r.hold
  {
    var t := was + [s];
    assert t[..|was|] == was;
    assert forall k :: Breaks(r, s, k) <==> Start(r, t, k) < |t|;
    map k | k in kinds :: t[Start(r, t, k)].at
  }

  /** A rule that held before goes on from where it began; one that did not begins now. */
  lemma Continues(r: Rules, was: seq<Sample>, s: Sample, since: map<string, int>, kept: map<string, int>,
                  first: map<string, int>)
    requires Follows(since, r, was) && Follows(first, r, was + [s])
    requires kept == map k | k in since && k in first :: since[k]
    ensures forall k :: k in kept ==> k in first && kept[k] == first[k]
    ensures forall k :: k in first && k !in kept ==> first[k] == s.at
  {
    var t := was + [s];
    assert t[..|was|] == was;
    forall k | k in first ensures if k in kept then kept[k] == first[k] else first[k] == s.at {
      assert Start(r, t, k) == Start(r, was, k);
    }
  }

  // ---------------------------------------------------------------------
  // Drops
  // ---------------------------------------------------------------------

  /** Where the last unbroken stretch of samples that each drop exactly n begins. */
  function SameCountSince(trace: seq<Sample>, n: nat): (i: nat)
    ensures i <= |trace| && forall j :: i <= j < |trace| ==> trace[j].dropped == n
  {
    var m := |trace|;
    if m == 0 || trace[m - 1].dropped != n then m else SameCountSince(trace[..m - 1], n)
  }

  /** A drop is held sample after sample only while the very same count is dropped. */
  lemma {:induction false} DropHeldIffSameCount(r: Rules, trace: seq<Sample>, n: nat)
    requires 0 < n
    ensures Start(r, trace, Digits(n)) == SameCountSince(trace, n)
    ensures Held(r, trace, Digits(n)) <==>
              var i := SameCountSince(trace, n);
              i < |trace| && trace[|trace| - 1].at - trace[i].at >= r.hold
  {
    var m := |trace|;
    if m > 0 {
      BreaksCount(r, trace[m - 1], n);
      DropHeldIffSameCount(r, trace[..m - 1], n);
    }
  }

  lemma BreaksCount(r: Rules, s: Sample, n: nat)
    requires 0 < n
    ensures Breaks(r, s, Digits(n)) <==> s.dropped == n
  {
    assert Digits(n)[0] != 'c' && Digits(n)[0] != 'm' && Digits(n)[0] != 'p' && Digits(n)[0] != 's';
    if s.dropped > 0 && Digits(n) == Digits(s.dropped) { DigitsInjective(n, s.dropped); }
  }

  /**
  "Any drop, for Hold" is not what the code does: when every sample drops tunnels but never
  as many as the one before it, no drop rule is ever held.
  */
  lemma ChangingDropsNeverHeld(r: Rules, trace: seq<Sample>, n: nat)
    requires 0 < n && 0 < r.hold
    requires forall j :: 0 < j < |trace| ==> trace[j].dropped != trace[j - 1].dropped
    ensures !Held(r, trace, Digits(n))
  {
    DropHeldIffSameCount(r, trace, n);
    var i := SameCountSince(trace, n);
    if 1 < |trace| { assert trace[|trace| - 1].dropped != trace[|trace| - 2].dropped; }
  }
}
