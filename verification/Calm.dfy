/**
 Passes that nothing disturbs: what a list of steps does to the stored children,
 key by key.
 */
module Calm {
  import opened Api
  import opened Children
  import opened Cluster
  import opened Controller

  // ---- Children, key by key -------------------------------------------------------

  function Lookup(objs: Objects, key: Key): (found: Option<Child>)
    ensures found.Some? ==> OfKind(key.kind, found.value.body)
  {
    if key in objs then Some(objs[key].obj) else None
  }

  /** The same content under a key, resource versions aside. */
  ghost predicate SameAt(a: Objects, b: Objects, k: Key) { Lookup(a, k) == Lookup(b, k) }

  /** `b` holds under the target's key what create-or-update makes of what `a` held there. */
  ghost predicate Placed(a: Objects, b: Objects, t: Target) {
    t.key in b && exists address: nat :: b[t.key].obj == Reconciled(t.key.kind, Lookup(a, t.key), t.desired, address)
  }

  ghost function Touched(placed: set<Target>, pruned: set<Key>): set<Key> { (set t | t in placed :: t.key) + pruned }

  /** From `a` to `b` exactly the given targets were placed and the given keys removed. */
  ghost predicate Exactly(a: Objects, b: Objects, placed: set<Target>, pruned: set<Key>) {
    (forall t | t in placed :: Placed(a, b, t))
    && (forall k | k in pruned :: k !in b)
    && (forall k | k !in Touched(placed, pruned) :: SameAt(a, b, k))
  }

  lemma ExactlyNothing(a: Objects)
    ensures Exactly(a, a, {}, {})
  {
  }

  lemma TouchedGrows(placed: set<Target>, pruned: set<Key>, t: Target, key: Key)
    ensures Touched(placed + {t}, pruned) == Touched(placed, pruned) + {t.key}
    ensures Touched(placed, pruned + {key}) == Touched(placed, pruned) + {key}
  {
    assert t in placed + {t};
    forall k | k in Touched(placed, pruned) + {t.key} ensures k in Touched(placed + {t}, pruned) {
      if k in Touched(placed, pruned) && k !in pruned {
        var u :| u in placed && u.key == k;
        assert u in placed + {t};
      }
    }
  }

  lemma PlaceOne(a: Objects, b: Objects, c: Objects, placed: set<Target>, pruned: set<Key>, t: Target)
    requires Exactly(a, b, placed, pruned) && t.key !in Touched(placed, pruned)
    requires Placed(b, c, t) && forall k | k != t.key :: SameAt(b, c, k)
    ensures Exactly(a, c, placed + {t}, pruned)
  {
    assert SameAt(a, b, t.key);
    forall u | u in placed ensures Placed(a, c, u) {
      assert u.key in Touched(placed, pruned);
      assert Placed(a, b, u) && SameAt(b, c, u.key);
    }
    forall k | k in pruned ensures k !in c { assert SameAt(b, c, k); }
    forall k | k !in Touched(placed + {t}, pruned) ensures SameAt(a, c, k) {
      TouchedGrows(placed, pruned, t, t.key);
      assert SameAt(a, b, k) && SameAt(b, c, k);
    }
  }

  lemma PruneOne(a: Objects, b: Objects, c: Objects, placed: set<Target>, pruned: set<Key>, key: Key)
    requires Exactly(a, b, placed, pruned) && key !in Touched(placed, pruned)
    requires key !in c && forall k | k != key :: SameAt(b, c, k)
    ensures Exactly(a, c, placed, pruned + {key})
  {
    forall u | u in placed ensures Placed(a, c, u) {
      assert u.key in Touched(placed, pruned);
      assert Placed(a, b, u) && SameAt(b, c, u.key);
    }
    forall k | k in pruned ensures k !in c {
      assert k in Touched(placed, pruned);
      assert SameAt(b, c, k);
    }
    forall k | k !in Touched(placed, pruned + {key}) ensures SameAt(a, c, k) {
      assert SameAt(a, b, k) && SameAt(b, c, k);
    }
  }

  // ---- Single steps -----------------------------------------------------------------

  /** Nothing is scheduled, and the controller's copy is the stored instance. */
  predicate IsCalm(p: Pass) { p.w.schedule == [] && p.w.db.inst == Some(p.rec) && !p.failed }

  lemma CalmEnsure(p: Pass, t: Target)
    requires IsCalm(p)
    ensures var q := EnsureTarget(p, t);
      IsCalm(q) && q.rec == p.rec && q.managed == p.managed + [KeyText(t.key)] &&
      Placed(p.w.db.objs, q.w.db.objs, t) && forall k | k != t.key :: SameAt(p.w.db.objs, q.w.db.objs, k)
  {
    var a := p.w.db.objs;
    var q := EnsureTarget(p, t);
    if t.key in a {
      var next := Revise(t.key.kind, a[t.key].obj, t.desired);
      assert q.w.db.objs[t.key].obj == Reconciled(t.key.kind, Lookup(a, t.key), t.desired, 0);
    } else {
      assert q.w.db.objs[t.key].obj == Reconciled(t.key.kind, Lookup(a, t.key), t.desired, p.w.db.clock);
    }
  }

  lemma CalmPrune(p: Pass, key: Key)
    requires IsCalm(p)
    ensures var q := Prune(p, key);
      IsCalm(q) && q.rec == p.rec && q.managed == p.managed &&
      key !in q.w.db.objs && forall k | k != key :: SameAt(p.w.db.objs, q.w.db.objs, k)
  {
  }

  /** A merge patch on an up-to-date base stores exactly the intended status. */
  lemma PatchIsFaithful(base: Status, next: Status)
    ensures MergeStatus(base, next, base) == next
  {
  }

  lemma CalmPatch(w: World, rec: Record, next: Status)
    requires w.schedule == [] && w.db.inst == Some(rec)
    ensures var (w', rec', reply) := PatchStatus(w, rec, next);
      reply.Done? && w'.schedule == [] && w'.db.inst == Some(rec') && rec'.obj == rec.obj.(status := next) && w'.db.objs == w.db.objs
  {
    PatchIsFaithful(rec.obj.status, next);
  }

  lemma CalmNote(p: Pass, note: Note)
    requires IsCalm(p)
    ensures var q := MarkPass(p, note);
      IsCalm(q) && q.managed == p.managed && q.w.db.objs == p.w.db.objs &&
      q.rec.obj == p.rec.obj.(status := p.rec.obj.status.(conditions :=
        SetCondition(p.rec.obj.status.conditions, NoteCondition(p.rec.obj, note, p.w.db.clock))))
  {
    var status := p.rec.obj.status;
    CalmPatch(p.w, p.rec, status.(conditions := SetCondition(status.conditions, NoteCondition(p.rec.obj, note, p.w.db.clock))));
  }

  // ---- Lists of steps ---------------------------------------------------------------

  function StepTargets(step: Step): set<Target> { if step.EnsureStep? then {step.target} else {} }

  function StepPrunes(step: Step): set<Key> { if step.PruneStep? then {step.key} else {} }

  function StepNotes(step: Step): seq<Note> { if step.NoteStep? then [step.note] else [] }

  function StepTexts(step: Step): seq<string> { if step.EnsureStep? then [KeyText(step.target.key)] else [] }

  ghost function StepKeys(step: Step): set<Key> { Touched(StepTargets(step), StepPrunes(step)) }

  ghost predicate FreshKeys(steps: seq<Step>, touched: set<Key>) {
    steps == [] || (StepKeys(steps[0]) !! touched && FreshKeys(steps[1..], touched + StepKeys(steps[0])))
  }

  function TargetsOf(steps: seq<Step>): set<Target> {
    if steps == [] then {} else StepTargets(steps[0]) + TargetsOf(steps[1..])
  }

  function PrunedOf(steps: seq<Step>): set<Key> {
    if steps == [] then {} else StepPrunes(steps[0]) + PrunedOf(steps[1..])
  }

  function NotesOf(steps: seq<Step>): seq<Note> {
    if steps == [] then [] else StepNotes(steps[0]) + NotesOf(steps[1..])
  }

  function TextsOf(steps: seq<Step>): seq<string> {
    if steps == [] then [] else StepTexts(steps[0]) + TextsOf(steps[1..])
  }

  /** Nothing of the instance but its status differs. */
  predicate OnlyStatus(a: TlnDB, b: TlnDB) { b == a.(status := b.status) }

  /** Nothing of the instance but its conditions differs. */
  predicate OnlyConditions(a: TlnDB, b: TlnDB) { b == a.(status := a.status.(conditions := b.status.conditions)) }

  lemma TouchedUnion(placed: set<Target>, pruned: set<Key>, morePlaced: set<Target>, morePruned: set<Key>)
    ensures Touched(placed + morePlaced, pruned + morePruned) == Touched(placed, pruned) + Touched(morePlaced, morePruned)
  {
    forall k | k in Touched(placed, pruned) + Touched(morePlaced, morePruned)
      ensures k in Touched(placed + morePlaced, pruned + morePruned)
    {
      if k !in pruned + morePruned {
        var t :| t in placed + morePlaced && t.key == k;
      }
    }
  }

  /** From `p` to `q`, with `a` the children at the start of the pass. */
  ghost predicate Advanced(a: Objects, p: Pass, q: Pass, placed: set<Target>, pruned: set<Key>, texts: seq<string>) {
    IsCalm(q) && Exactly(a, q.w.db.objs, placed, pruned) && q.managed == p.managed + texts && OnlyConditions(p.rec.obj, q.rec.obj)
  }

  lemma CalmStep(step: Step, p: Pass, a: Objects, placed: set<Target>, pruned: set<Key>)
    requires IsCalm(p) && Exactly(a, p.w.db.objs, placed, pruned) && StepKeys(step) !! Touched(placed, pruned)
    ensures Advanced(a, p, Run(step, p), placed + StepTargets(step), pruned + StepPrunes(step), StepTexts(step))
  {
    assert placed + {} == placed && pruned + {} == pruned;
    var q := Run(step, p);
    match step
    case EnsureStep(t) =>
      assert t.key in StepKeys(step);
      CalmEnsure(p, t);
      PlaceOne(a, p.w.db.objs, q.w.db.objs, placed, pruned, t);
    case PruneStep(k) =>
      assert k in StepKeys(step);
      CalmPrune(p, k);
      PruneOne(a, p.w.db.objs, q.w.db.objs, placed, pruned, k);
    case NoteStep(note) =>
      CalmNote(p, note);
  }

  lemma AdvancedTwice(a: Objects, p: Pass, q: Pass, r: Pass, placed: set<Target>, pruned: set<Key>, texts: seq<string>,
                      placed2: set<Target>, pruned2: set<Key>, texts2: seq<string>)
    requires Advanced(a, p, q, placed, pruned, texts) && Advanced(a, q, r, placed2, pruned2, texts2)
    ensures Advanced(a, p, r, placed2, pruned2, texts + texts2)
  {
    assert p.managed + texts + texts2 == p.managed + (texts + texts2);
  }

  lemma FirstAndRest(steps: seq<Step>, placed: set<Target>, pruned: set<Key>)
    requires steps != []
    ensures placed + StepTargets(steps[0]) + TargetsOf(steps[1..]) == placed + TargetsOf(steps)
    ensures pruned + StepPrunes(steps[0]) + PrunedOf(steps[1..]) == pruned + PrunedOf(steps)
  {
  }

  /** A calm list of steps with distinct keys places its targets and removes its pruned keys, and nothing else. */
  lemma {:induction false} CalmRun(steps: seq<Step>, p: Pass, a: Objects, placed: set<Target>, pruned: set<Key>)
    requires IsCalm(p) && Exactly(a, p.w.db.objs, placed, pruned) && FreshKeys(steps, Touched(placed, pruned))
    ensures Advanced(a, p, RunAll(steps, p), placed + TargetsOf(steps), pruned + PrunedOf(steps), TextsOf(steps))
    decreases |steps|
  {
    if steps == [] {
      assert placed + {} == placed && pruned + {} == pruned;
    } else {
      var step, rest := steps[0], steps[1..];
      var q := Run(step, p);
      CalmStep(step, p, a, placed, pruned);
      TouchedUnion(placed, pruned, StepTargets(step), StepPrunes(step));
      CalmRun(rest, q, a, placed + StepTargets(step), pruned + StepPrunes(step));
      FirstAndRest(steps, placed, pruned);
      AdvancedTwice(a, p, q, RunAll(rest, q), placed + StepTargets(step), pruned + StepPrunes(step), StepTexts(step),
                    placed + TargetsOf(steps), pruned + PrunedOf(steps), TextsOf(rest));
    }
  }

  lemma {:induction false} RunAllConcat(a: seq<Step>, b: seq<Step>, p: Pass)
    ensures RunAll(a + b, p) == RunAll(b, RunAll(a, p))
    decreases |a|
  {
    if a == [] {
      assert a + b == b;
    } else if !p.failed {
      assert (a + b)[1..] == a[1..] + b && (a + b)[0] == a[0];
      RunAllConcat(a[1..], b, Run(a[0], p));
    }
  }
}
