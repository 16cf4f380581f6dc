/** Concurrency slots (src/store/redis.rs, src/store/memory.rs, src/service/gateway.rs): a shared counter changed by
    separate increment and decrement commands, the mutex-held counter it stands for, and the holders of granted slots.
    Assumed: the key does not expire while in use, `max` stays fixed, and commands that are sent take effect. */
module Slots {

  /** Where one caller stands. `Counted` holds the value its INCR returned. */
  datatype Phase =
    | Counted(val: int)
    | Refusing                // over the limit, DECR still to come
    | Denied
    | Holding                 // granted; a SlotHolder owns the slot
    | ReleaseSpawned          // holder dropped, release not yet run
    | Released
    | Lost(granted: bool)     // cancelled between INCR and its outcome, disarmed, or dropped outside a runtime
  {
    predicate Occupies() { Counted? || Refusing? || Holding? || ReleaseSpawned? || Lost? }

    /** Counted towards the limit: its INCR stayed within it and no release has run. */
    predicate Granted(max: int) {
      Holding? || ReleaseSpawned? || (Lost? && granted) || (Counted? && val <= max)
    }
  }

  type Caller = nat
  datatype System = System(counter: int, max: int, callers: map<Caller, Phase>, releases: seq<Caller>)

  datatype Step =
    | Incr(c: Caller)
    | Check(c: Caller)
    | Undo(c: Caller)
    | DropHolder(c: Caller, inRuntime: bool)
    | Disarm(c: Caller)
    | RunRelease(c: Caller)
    | Cancel(c: Caller)

  function Start(max: int): System { System(0, max, map[], []) }

  function At(s: System, c: Caller, p: Phase): bool { c in s.callers && s.callers[c] == p }

  function Move(s: System, c: Caller, p: Phase, delta: int): System {
    s.(counter := s.counter + delta, callers := s.callers[c := p])
  }

  /** One atomic step; a step whose caller is not at its start does nothing. */
  function Apply(s: System, step: Step): System {
    match step
    case Incr(c) => if c in s.callers then s else Move(s, c, Counted(s.counter + 1), 1)
    case Check(c) =>
      if c in s.callers && s.callers[c].Counted?
      then Move(s, c, if s.callers[c].val > s.max then Refusing else Holding, 0) else s
    case Undo(c) => if At(s, c, Refusing) then Move(s, c, Denied, -1) else s
    case DropHolder(c, inRuntime) => if At(s, c, Holding) then Move(s, c, if inRuntime then ReleaseSpawned else Lost(true), 0) else s
    case Disarm(c) => if At(s, c, Holding) then Move(s, c, Lost(true), 0) else s
    case RunRelease(c) => if At(s, c, ReleaseSpawned) then Move(s, c, Released, -1).(releases := s.releases + [c]) else s
    case Cancel(c) =>
      if c in s.callers && (s.callers[c].Counted? || s.callers[c].Refusing?)
      then Move(s, c, Lost(s.callers[c].Granted(s.max)), 0) else s
  }

  function Run(s: System, steps: seq<Step>): System {
    if steps == [] then s else Apply(Run(s, steps[..|steps| - 1]), steps[|steps| - 1])
  }

  ghost function Occupying(s: System): set<Caller> { set c | c in s.callers && s.callers[c].Occupies() }
  ghost function Grants(s: System): set<Caller> { set c | c in s.callers && s.callers[c].Granted(s.max) }
  /** Callers between an INCR beyond the limit and its DECR, and those cancelled there. */
  ghost function Overshooting(s: System): set<Caller> { Occupying(s) - Grants(s) }
  ghost function LostSlots(s: System): set<Caller> { set c | c in s.callers && s.callers[c].Lost? }
  ghost function Live(s: System): set<Caller> { set c | c in s.callers && (s.callers[c].Holding? || s.callers[c].ReleaseSpawned?) }

  ghost predicate Consistent(s: System) { CountsConsistent(s) && ReleasesConsistent(s) }

  ghost predicate CountsConsistent(s: System) {
    s.counter == |Occupying(s)| && |Grants(s)| <= (if s.max > 0 then s.max else 0)
  }

  ghost predicate ReleasesConsistent(s: System) {
    && (forall c :: c in s.releases <==> c in s.callers && s.callers[c].Released?)
    && (forall i, j :: 0 <= i < j < |s.releases| ==> s.releases[i] != s.releases[j])
  }

  /** Moving one caller adds it to, or takes it from, the occupying and the granted. */
  lemma Moved(s: System, c: Caller, p: Phase, delta: int)
    ensures var t := Move(s, c, p, delta);
            && Occupying(t) == (if p.Occupies() then Occupying(s) + {c} else Occupying(s) - {c})
            && Grants(t) == (if p.Granted(s.max) then Grants(s) + {c} else Grants(s) - {c})
  {}

  lemma GrantsOccupy(s: System)
    ensures Grants(s) <= Occupying(s) && |Grants(s)| <= |Occupying(s)|
    ensures |Overshooting(s)| == |Occupying(s)| - |Grants(s)|
  {
    Subset(Grants(s), Occupying(s));
  }

  lemma Subset(a: set<Caller>, b: set<Caller>)
    requires a <= b
    ensures |a| <= |b| && |b - a| == |b| - |a|
  {
    assert b == a + (b - a);
  }

  predicate TakesSlot(s: System, step: Step) { step.Incr? && step.c !in s.callers && s.counter + 1 <= s.max }
  predicate Overshoots(s: System, step: Step) { step.Incr? && step.c !in s.callers && s.counter + 1 > s.max }
  predicate GivesBack(s: System, step: Step) { step.RunRelease? && At(s, step.c, ReleaseSpawned) }
  predicate Undoes(s: System, step: Step) { step.Undo? && At(s, step.c, Refusing) }

  /** What a step does to the two sets. */
  lemma StepSets(s: System, step: Step)
    ensures var c, t := step.c, Apply(s, step);
            && Grants(t) == (if TakesSlot(s, step) then Grants(s) + {c} else if GivesBack(s, step) then Grants(s) - {c} else Grants(s))
            && Occupying(t) == (if TakesSlot(s, step) || Overshoots(s, step) then Occupying(s) + {c}
                                else if GivesBack(s, step) || Undoes(s, step) then Occupying(s) - {c} else Occupying(s))
            && (step.Incr? && c !in s.callers ==> c !in Occupying(s) && c !in Grants(s))
            && (GivesBack(s, step) ==> c in Occupying(s) && c in Grants(s))
            && (Undoes(s, step) ==> c in Occupying(s))
  {
    var c := step.c;
    if c in s.callers { SamePlace(s, c); }
    match step
    case Incr(_) => Moved(s, c, Counted(s.counter + 1), 1);
    case Check(_) => if c in s.callers && s.callers[c].Counted? { Moved(s, c, if s.callers[c].val > s.max then Refusing else Holding, 0); }
    case Undo(_) => Moved(s, c, Denied, -1);
    case DropHolder(_, inRuntime) => Moved(s, c, if inRuntime then ReleaseSpawned else Lost(true), 0);
    case Disarm(_) => Moved(s, c, Lost(true), 0);
    case RunRelease(_) => Moved(s, c, Released, -1);
    case Cancel(_) => if c in s.callers { Moved(s, c, Lost(s.callers[c].Granted(s.max)), 0); }
  }

  lemma SamePlace(s: System, c: Caller)
    requires c in s.callers
    ensures s.callers[c].Occupies() ==> Occupying(s) + {c} == Occupying(s)
    ensures if s.callers[c].Granted(s.max) then Grants(s) + {c} == Grants(s) else Grants(s) - {c} == Grants(s)
  {}

  lemma StepConsistent(s: System, step: Step)
    requires Consistent(s)
    ensures Consistent(Apply(s, step))
  {
    CountsStep(s, step);
    ReleasesStep(s, step);
  }

  lemma CountsStep(s: System, step: Step)
    requires CountsConsistent(s)
    ensures CountsConsistent(Apply(s, step))
  {
    GrantsOccupy(s);
    StepSets(s, step);
    StepCounter(s, step);
    hide Occupying, Grants, Apply;
  }

  lemma StepCounter(s: System, step: Step)
    ensures Apply(s, step).max == s.max
    ensures Apply(s, step).counter == (if TakesSlot(s, step) || Overshoots(s, step) then s.counter + 1
                                       else if GivesBack(s, step) || Undoes(s, step) then s.counter - 1 else s.counter)
  {}

  lemma ReleasesStep(s: System, step: Step)
    requires ReleasesConsistent(s)
    ensures ReleasesConsistent(Apply(s, step))
  {}

  lemma {:induction false} RunConsistent(max: int, steps: seq<Step>)
    ensures Consistent(Run(Start(max), steps)) && Run(Start(max), steps).max == max
  {
    if steps == [] {
      assert Occupying(Start(max)) == {} && Grants(Start(max)) == {};
    } else {
      RunConsistent(max, steps[..|steps| - 1]);
      StepConsistent(Run(Start(max), steps[..|steps| - 1]), steps[|steps| - 1]);
    }
  }

  /** Under every interleaving: the counter is the unreleased grants plus the overshooting callers, so it is never
      negative; unreleased grants never exceed the limit; and every release is run by a different caller. */
  lemma SlotSafety(max: int, steps: seq<Step>)
    ensures var s := Run(Start(max), steps);
            && s.counter == |Grants(s)| + |Overshooting(s)| >= 0
            && |Grants(s)| <= (if max > 0 then max else 0)
            && |Live(s)| <= (if max > 0 then max else 0)
            && forall i, j :: 0 <= i < j < |s.releases| ==> s.releases[i] != s.releases[j]
  {
    var s := Run(Start(max), steps);
    RunConsistent(max, steps);
    GrantsOccupy(s);
    Subset(Live(s), Grants(s));
  }

  /** How a holder ends: dropped inside a runtime its release is spawned, and runs once; dropped outside one, or
      disarmed, the slot is never given back. Neither touches the counter by itself. */
  lemma HolderEnds(s: System, c: Caller)
    requires At(s, c, Holding)
    ensures var t := Apply(s, DropHolder(c, true));
            t == s.(callers := s.callers[c := ReleaseSpawned])
            && Apply(t, RunRelease(c)) == s.(counter := s.counter - 1, callers := s.callers[c := Released], releases := s.releases + [c])
    ensures Apply(s, DropHolder(c, false)) == s.(callers := s.callers[c := Lost(true)]) == Apply(s, Disarm(c))
  {}

  /** A caller cancelled between its increment and the outcome loses what it counted, for good. */
  lemma CancelledCallerLoses(s: System, c: Caller)
    requires c in s.callers && (s.callers[c].Counted? || s.callers[c] == Refusing)
    ensures Apply(s, Cancel(c)) == s.(callers := s.callers[c := Lost(s.callers[c].Counted? && s.callers[c].val <= s.max)])
  {}

  /** What has been given back, lost or denied never changes the counter again. */
  lemma NothingComesBack(s: System, step: Step)
    requires step.c in s.callers && (s.callers[step.c].Released? || s.callers[step.c].Lost? || s.callers[step.c].Denied?)
    ensures Apply(s, step) == s
  {}

  predicate Quiescent(s: System) { forall c :: c in s.callers ==> !s.callers[c].Counted? && !s.callers[c].Refusing? }

  /** With no caller inside the protocol the counter is the live holders plus the slots lost for good;
      without losses it is exactly the live holders. */
  lemma QuiescentCounter(max: int, steps: seq<Step>)
    requires Quiescent(Run(Start(max), steps))
    ensures var s := Run(Start(max), steps);
            s.counter == |Live(s)| + |LostSlots(s)| && (LostSlots(s) == {} ==> s.counter == |Live(s)|)
  {
    var s := Run(Start(max), steps);
    RunConsistent(max, steps);
    assert Occupying(s) == Live(s) + LostSlots(s);
    assert Live(s) !! LostSlots(s);
  }

  // ---- the atomic counterpart ----

  /** `MemoryStore::acquire_slot` and `release_slot`, on the count stored for a key. */
  function MemoryAcquire(count: int, max: int): (int, bool) { if count + 1 > max then (count, false) else (count + 1, true) }
  function MemoryRelease(count: int): int { if count > 0 then count - 1 else count }

  /** Seen through its number of unreleased grants, every step is an atomic grant, an atomic release whose guard
      holds, or no step at all. */
  lemma StepRefinesMemory(s: System, step: Step)
    requires Consistent(s)
    ensures var before, after := |Grants(s)|, |Grants(Apply(s, step))|;
            || after == before
            || (step.Incr? && MemoryAcquire(before, s.max) == (after, true))
            || (step.RunRelease? && before > 0 && MemoryRelease(before) == after)
  {
    GrantsOccupy(s);
    StepSets(s, step);
  }

  /** The answer of the counter protocol to a new caller, and the answer of the atomic store. */
  function CounterAnswer(s: System): bool { s.counter + 1 <= s.max }
  ghost function AtomicAnswer(s: System): bool { MemoryAcquire(|Grants(s)|, s.max).1 }

  /** A caller the protocol grants, the atomic store grants too; they can only differ in a refusal. */
  lemma GrantedOnlyIfAtomic(max: int, steps: seq<Step>)
    ensures var s := Run(Start(max), steps); CounterAnswer(s) ==> AtomicAnswer(s)
  {
    RunConsistent(max, steps);
    GrantsOccupy(Run(Start(max), steps));
  }

  /** A caller overshoots only once every slot has been granted at the same time. */
  lemma {:induction false} OvershootNeedsFull(max: int, steps: seq<Step>)
    requires Overshooting(Run(Start(max), steps)) != {}
    ensures exists n :: 0 <= n <= |steps| && |Grants(Run(Start(max), steps[..n]))| >= max
  {
    assert Occupying(Start(max)) == {};
    if steps != [] {
      var front := steps[..|steps| - 1];
      var s := Run(Start(max), front);
      RunConsistent(max, front);
      if Overshooting(s) != {} {
        OvershootNeedsFull(max, front);
        var n :| 0 <= n <= |front| && |Grants(Run(Start(max), front[..n]))| >= max;
        assert front[..n] == steps[..n];
      } else {
        GrantsOccupy(s);
        if !Overshoots(s, steps[|steps| - 1]) { CalmStep(s, steps[|steps| - 1]); }
        assert steps[..|front|] == front;
      }
    }
  }

  /** A run in which no arriving caller overshoots. */
  predicate Calm(s: System, steps: seq<Step>) {
    steps == [] || (Calm(s, steps[..|steps| - 1]) && !Overshoots(Run(s, steps[..|steps| - 1]), steps[|steps| - 1]))
  }

  ghost function LostGrants(s: System): set<Caller> { set c | c in s.callers && s.callers[c] == Lost(true) }

  ghost predicate AnswersDiffer(s: System) { CounterAnswer(s) != AtomicAnswer(s) }

  /** A calm continuation after which the two answers differ. */
  ghost predicate LeadsToDenial(s: System, next: seq<Step>) { Calm(s, next) && AnswersDiffer(Run(s, next)) }

  /** From here on, in every continuation in which nobody else overshoots, the counter answers as the atomic store
      does, if and only if nobody is overshooting now or every slot is lost. */
  lemma DenialsToComeExactly(max: int, steps: seq<Step>)
    ensures var s := Run(Start(max), steps);
            (exists next :: LeadsToDenial(s, next)) <==> Overshooting(s) != {} && |LostGrants(s)| < max
  {
    var s := Run(Start(max), steps);
    RunConsistent(max, steps);
    hide Run, LeadsToDenial, Consistent, Overshooting, LostGrants;
    if next: seq<Step> :| LeadsToDenial(s, next) {
      CalmAgrees(s, next);
    } else if Overshooting(s) != {} && |LostGrants(s)| < max {
      var next := DenialAhead(s);
    }
  }

  lemma CalmStep(s: System, step: Step)
    requires Consistent(s) && !Overshoots(s, step)
    ensures Overshooting(Apply(s, step)) <= Overshooting(s) && LostGrants(s) <= LostGrants(Apply(s, step))
  {
    StepSets(s, step);
    LostStays(s, step);
    hide Occupying, Grants, Apply, LostGrants;
  }

  lemma LostStays(s: System, step: Step)
    ensures LostGrants(s) <= LostGrants(Apply(s, step))
  {}

  lemma {:induction false} CalmRun(s: System, next: seq<Step>)
    requires Consistent(s) && Calm(s, next)
    ensures var t := Run(s, next);
            Consistent(t) && t.max == s.max && Overshooting(t) <= Overshooting(s) && LostGrants(s) <= LostGrants(t)
  {
    hide Apply, Consistent, Occupying, Grants, LostGrants, Overshooting, Overshoots;
    if next != [] {
      var front := next[..|next| - 1];
      CalmRun(s, front);
      StepConsistent(Run(s, front), next[|next| - 1]);
      StepCounter(Run(s, front), next[|next| - 1]);
      CalmStep(Run(s, front), next[|next| - 1]);
    }
  }

  lemma CalmAgrees(s: System, next: seq<Step>)
    requires Consistent(s) && LeadsToDenial(s, next)
    ensures Overshooting(s) != {} && |LostGrants(s)| < s.max
  {
    var t := Run(s, next);
    CalmRun(s, next);
    GrantsOccupy(t);
    Subset(LostGrants(s), LostGrants(t));
    Subset(LostGrants(t), Grants(t));
  }

  /** Wind one grant down if all slots are granted, then let new callers take what is left of the limit: the last
      free slot is refused. */
  lemma DenialAhead(s: System) returns (next: seq<Step>)
    requires Consistent(s) && Overshooting(s) != {} && |LostGrants(s)| < s.max
    ensures LeadsToDenial(s, next)
  {
    GrantsOccupy(s);
    if |Grants(s)| < s.max {
      next := FillUp(s);
    } else {
      if Grants(s) <= LostGrants(s) { Subset(Grants(s), LostGrants(s)); }
      var c :| c in Grants(s) && c !in LostGrants(s);
      next := [Check(c), DropHolder(c, true), RunRelease(c)];
      WindDown(s, c);
      Unroll3(s, Check(c), DropHolder(c, true), RunRelease(c));
      var t := Run(s, next);
      assert t == Move(s, c, Released, -1).(releases := t.releases);
      Moved(s, c, Released, -1);
      assert Grants(t) == Grants(s) - {c} && |Grants(t)| == |Grants(s)| - 1;
    }
  }

  lemma WindDown(s: System, c: Caller)
    requires c in Grants(s) && c !in LostGrants(s)
    ensures var t := Apply(Apply(Apply(s, Check(c)), DropHolder(c, true)), RunRelease(c));
            t == Move(s, c, Released, -1).(releases := t.releases)
  {
    assert s.callers[c].Holding? || s.callers[c].ReleaseSpawned? || (s.callers[c].Counted? && s.callers[c].val <= s.max);
  }

  lemma Unroll3(s: System, a: Step, b: Step, c: Step)
    requires !a.Incr? && !b.Incr? && !c.Incr?
    ensures Run(s, [a, b, c]) == Apply(Apply(Apply(s, a), b), c) && Calm(s, [a, b, c])
  {
    hide Apply;
    assert [a, b, c][..2] == [a, b] && [a, b][..1] == [a] && [a][..0] == [] && Calm(s, []) && Run(s, []) == s;
    assert [a][..|[a]| - 1] == [] && !Overshoots(s, a);
    assert Run(s, [a]) == Apply(s, a) && Calm(s, [a]);
    assert Run(s, [a, b]) == Apply(Apply(s, a), b) && Calm(s, [a, b]);
  }

  lemma {:induction false} FillUp(s: System) returns (next: seq<Step>)
    requires Consistent(s) && Overshooting(s) != {} && |Grants(s)| < s.max
    ensures LeadsToDenial(s, next)
    decreases s.max - s.counter
  {
    GrantsOccupy(s);
    if s.counter >= s.max {
      next := [];
    } else {
      var c := Newcomer(s);
      var t := Apply(s, Incr(c));
      StepConsistent(s, Incr(c));
      StepSets(s, Incr(c));
      StepCounter(s, Incr(c));
      assert Overshooting(t) == Overshooting(s);
      assert |Grants(t)| == |Grants(s)| + 1;
      var rest := FillUp(t);
      next := [Incr(c)] + rest;
      OneFirst(s, Incr(c), rest);
    }
  }

  lemma Newcomer(s: System) returns (c: Caller)
    ensures c !in s.callers
  {
    c := 0;
    var rest := s.callers.Keys;
    while c in s.callers
      invariant rest == set k | k in s.callers && k >= c
      decreases |rest|
    {
      rest := rest - {c};
      c := c + 1;
    }
  }

  lemma {:induction false} OneFirst(s: System, step: Step, rest: seq<Step>)
    requires !Overshoots(s, step) && Calm(Apply(s, step), rest)
    ensures Calm(s, [step] + rest) && Run(s, [step] + rest) == Run(Apply(s, step), rest)
  {
    hide Apply, Overshoots;
    var all := [step] + rest;
    if rest == [] {
      assert all == [step] && [step][..0] == [];
      assert Run(s, []) == s && Calm(s, []);
    } else {
      OneFirst(s, step, rest[..|rest| - 1]);
      assert all[..|all| - 1] == [step] + rest[..|rest| - 1];
    }
  }

  const OVERSHOOT: seq<Step> := [Incr(0), Check(0), Incr(1), Check(1), DropHolder(0, true), RunRelease(0)]

  /** The protocol is not a refinement for denials: with one slot, a caller still undoing its increment
      makes the counter refuse a newcomer although no slot is granted any more. */
  lemma DenialWithoutHolder()
    ensures var s := Run(Start(1), OVERSHOOT); Grants(s) == {} && AtomicAnswer(s) && !CounterAnswer(s)
  {
    hide Run, Grants;
    Unroll6(Start(1), OVERSHOOT);
    var s2 := Apply(Apply(Start(1), Incr(0)), Check(0));
    assert s2 == System(1, 1, map[0 := Holding], []);
    var s4 := Apply(Apply(s2, Incr(1)), Check(1));
    assert s4 == System(2, 1, map[0 := Holding, 1 := Refusing], []);
    var s6 := Apply(Apply(s4, DropHolder(0, true)), RunRelease(0));
    assert s6 == System(1, 1, map[0 := Released, 1 := Refusing], [0]);
    NoGrants(s6);
  }

  lemma NoGrants(s: System)
    requires forall c :: c in s.callers ==> !s.callers[c].Granted(s.max)
    ensures Grants(s) == {}
  {}

  lemma Unroll6(s: System, steps: seq<Step>)
    requires |steps| == 6
    ensures Run(s, steps)
            == Apply(Apply(Apply(Apply(Apply(Apply(s, steps[0]), steps[1]), steps[2]), steps[3]), steps[4]), steps[5])
  {
    assert steps[..5][..4] == steps[..4] && steps[..4][..3] == steps[..3] && steps[..3][..2] == steps[..2];
    assert steps[..2][..1] == steps[..1] && steps[..1][..0] == [];
    assert Run(s, steps[..1]) == Apply(s, steps[0]);
    assert Run(s, steps[..2]) == Apply(Run(s, steps[..1]), steps[1]);
    assert Run(s, steps[..3]) == Apply(Run(s, steps[..2]), steps[2]);
    assert Run(s, steps[..4]) == Apply(Run(s, steps[..3]), steps[3]);
    assert Run(s, steps[..5]) == Apply(Run(s, steps[..4]), steps[4]);
  }

  // ---- the stores as they run ----

  class MemoryStore {
    var slots: map<string, int>

    constructor ()
      ensures slots == map[]
    {
      slots := map[];
    }

    function Count(key: string): int
      reads this
    {
      if key in slots then slots[key] else 0
    }

    method AcquireSlot(key: string, max: int) returns (granted: bool)
      modifies this
      ensures (Count(key), granted) == MemoryAcquire(old(Count(key)), max)
      ensures forall k :: k != key ==> Count(k) == old(Count(k))
    {
      if key !in slots { slots := slots[key := 0]; }
      slots := slots[key := slots[key] + 1];
      if slots[key] > max {
        slots := slots[key := slots[key] - 1];
        return false;
      }
      return true;
    }

    method ReleaseSlot(key: string)
      modifies this
      ensures Count(key) == MemoryRelease(old(Count(key)))
      ensures forall k :: k != key ==> Count(k) == old(Count(k))
    {
      if key in slots && slots[key] > 0 { slots := slots[key := slots[key] - 1]; }
    }
  }

  /** The Redis counter of one key with the callers of `acquire_slot` and the holders of granted slots,
      each method one atomic command or one synchronous action. */
  class RedisSlots {
    const max: int
    var counter: int
    var callers: map<Caller, Phase>
    var releases: seq<Caller>

    function State(): System
      reads this
    {
      System(counter, max, callers, releases)
    }

    constructor (max: int)
      ensures State() == Start(max)
    {
      this.max := max;
      counter, callers, releases := 0, map[], [];
    }

    method IncrementFor(c: Caller)
      modifies this
      ensures State() == Apply(old(State()), Incr(c))
    {
      if c in callers { return; }
      counter := counter + 1;
      callers := callers[c := Counted(counter)];
    }

    method CheckFor(c: Caller)
      modifies this
      ensures State() == Apply(old(State()), Check(c))
    {
      if c !in callers || !callers[c].Counted? { return; }
      if callers[c].val > max { callers := callers[c := Refusing]; } else { callers := callers[c := Holding]; }
    }

    method UndoFor(c: Caller)
      modifies this
      ensures State() == Apply(old(State()), Undo(c))
    {
      if c !in callers || callers[c] != Refusing { return; }
      counter := counter - 1;
      callers := callers[c := Denied];
    }

    /** `SlotHolder::drop`: the release is spawned when a runtime is there to run it. */
    method DropHolderOf(c: Caller, inRuntime: bool)
      modifies this
      ensures State() == Apply(old(State()), DropHolder(c, inRuntime))
    {
      if c !in callers || callers[c] != Holding { return; }
      callers := callers[c := if inRuntime then ReleaseSpawned else Lost(true)];
    }

    method DisarmHolderOf(c: Caller)
      modifies this
      ensures State() == Apply(old(State()), Disarm(c))
    {
      if c in callers && callers[c] == Holding { callers := callers[c := Lost(true)]; }
    }

    method RunReleaseOf(c: Caller)
      modifies this
      ensures State() == Apply(old(State()), RunRelease(c))
    {
      if c !in callers || callers[c] != ReleaseSpawned { return; }
      counter := counter - 1;
      callers := callers[c := Released];
      releases := releases + [c];
    }

    method CancelCaller(c: Caller)
      modifies this
      ensures State() == Apply(old(State()), Cancel(c))
    {
      if c !in callers || !(callers[c].Counted? || callers[c].Refusing?) { return; }
      callers := callers[c := Lost(callers[c].Granted(max))];
    }
  }
}
