/**
 Convergence: from any store, one fault-free pass (after at most one that adds the
 finalizer) makes every child agree with its builder, and later ones change nothing.
 */
module Fixpoint {
  import opened Api
  import opened Steps
  import opened Common
  import opened Children
  import opened Cluster
  import opened Controller
  import opened Calm
  import opened CalmPass
  import opened Convergence

  // ---- One pass -----------------------------------------------------------------------

  /** The pass leaves the status as it was, if that was up to date, and the children as in `p`. */
  ghost predicate Ends(inst: TlnDB, h: string, a: Objects, w: World) {
    PassDone(inst, h, a, w) &&
    (StatusCurrent(inst, ManagedTexts(inst, h), SetAt(w.db.objs, PrimaryKey(inst))) ==> SameButTime(inst, w.db.inst.value.obj))
  }

  lemma SyncedEnds(inst: TlnDB, h: string, a: Objects, p: Pass, w: World)
    requires ResourcesDone(inst, h, a, p) && PrimaryKey(inst) in p.w.db.objs
    requires Synced(inst, ManagedTexts(inst, h), SetAt(p.w.db.objs, PrimaryKey(inst)), p, w)
    ensures Ends(inst, h, a, w)
  {
    SyncedIsDone(inst, h, a, p, w);
  }

  /** A pass whose first patch, if any, is done. */
  lemma CalmWork(w: World, rec: Record)
    requires w.schedule == [] && w.db.inst == Some(rec) && Admissible(rec.obj, w.db.objs)
    ensures var p := ReconcileResources(w, rec);
      !p.failed && Ends(rec.obj, HashFor(rec.obj, w.db.objs), w.db.objs, SyncStatus(p.w, p.rec).0)
      && SyncStatus(p.w, p.rec).1 == AnswerIn(SyncStatus(p.w, p.rec).0)
  {
    var p := ReconcileResources(w, rec);
    var h := HashFor(rec.obj, w.db.objs);
    CalmResourcesDone(w, rec);
    CalmFinish(rec.obj, h, w.db.objs, p);
    SyncedEnds(rec.obj, h, w.db.objs, p, SyncStatus(p.w, p.rec).0);
  }

  lemma EndsFromFirstPhase(inst: TlnDB, first: TlnDB, h: string, a: Objects, w: World)
    requires OnlyStatus(inst, first) && inst.status.phase.Unset? && Ends(first, h, a, w)
    ensures Ends(inst, h, a, w)
  {
    SamePassDone(inst, first, h, a, w);
  }

  lemma CalmActive(w: World, rec: Record)
    requires w.schedule == [] && w.db.inst == Some(rec) && Admissible(rec.obj, w.db.objs)
    ensures Ends(rec.obj, HashFor(rec.obj, w.db.objs), w.db.objs, ReconcileActive(w, rec).0)
    ensures ReconcileActive(w, rec).1 == AnswerIn(ReconcileActive(w, rec).0)
  {
    if rec.obj.status.phase.Unset? {
      CalmPatch(w, rec, rec.obj.status.(phase := Provisioning, lastUpdateTime := Some(w.db.clock)));
      var (w1, rec1, ok) := SetPhase(w, rec, Provisioning);
      CalmWork(w1, rec1);
      EndsFromFirstPhase(rec.obj, rec1.obj, HashFor(rec.obj, w.db.objs), w.db.objs, ReconcileActive(w, rec).0);
    } else {
      CalmWork(w, rec);
    }
  }

  /** What an undisturbed pass over an active instance does. */
  lemma CalmReconcile(w: World)
    requires w.schedule == [] && w.db.inst.Some? && Active(w.db.inst.value.obj)
    requires Admissible(w.db.inst.value.obj, w.db.objs)
    ensures var inst := w.db.inst.value.obj;
      Ends(inst, HashFor(inst, w.db.objs), w.db.objs, Reconcile(w).0) && Reconcile(w).1 == AnswerIn(Reconcile(w).0)
  {
    CalmActive(w, w.db.inst.value);
  }

  // ---- Converged states ---------------------------------------------------------------

  /** Every wanted child is as its builder wants it; no helper would change any. */
  ghost predicate AllSettled(inst: TlnDB, h: string, objs: Objects) {
    (forall id | Wanted(inst.spec, id) :: SettledAt(objs, TargetOf(inst, h, id)))
    && (Prunes(inst.spec) ==> FollowerKey(inst) !in objs)
  }

  ghost predicate SettledAt(objs: Objects, t: Target) {
    t.key in objs && Settled(t.key.kind, objs[t.key].obj, t.desired)
  }

  /** Children and status are what the stored spec asks for, `h` being the digest of its configuration. */
  ghost predicate ConvergedWith(inst: TlnDB, h: string, objs: Objects) {
    Active(inst) && Admissible(inst, objs) && h == HashFor(inst, objs)
    && AllSettled(inst, h, objs) && StatusCurrent(inst, ManagedTexts(inst, h), SetAt(objs, PrimaryKey(inst)))
  }

  ghost predicate Converged(db: Db) { db.inst.Some? && exists h :: ConvergedWith(db.inst.value.obj, h, db.objs) }

  lemma PlacedIsSettled(a: Objects, b: Objects, t: Target)
    requires Placed(a, b, t)
    ensures SettledAt(b, t)
  {
    var address: nat :| b[t.key].obj == Reconciled(t.key.kind, Lookup(a, t.key), t.desired, address);
    ReconciledIsSettled(t.key.kind, Lookup(a, t.key), t.desired, address);
  }

  lemma SettledStays(b: Objects, c: Objects, t: Target)
    requires SettledAt(b, t) && Placed(b, c, t)
    ensures SameAt(b, c, t.key)
  {
    var address: nat :| c[t.key].obj == Reconciled(t.key.kind, Lookup(b, t.key), t.desired, address);
  }

  lemma AfterIsSettled(inst: TlnDB, h: string, a: Objects, b: Objects)
    requires ChildrenAfter(inst, h, a, b)
    ensures AllSettled(inst, h, b)
  {
    forall id | Wanted(inst.spec, id) ensures SettledAt(b, TargetOf(inst, h, id)) {
      PlacedIsSettled(a, b, TargetOf(inst, h, id));
    }
  }

  /** Where every child is settled, a fault-free pass changes none. */
  lemma SettledChildrenStay(inst: TlnDB, h: string, b: Objects, c: Objects)
    requires AllSettled(inst, h, b) && ChildrenAfter(inst, h, b, c)
    ensures forall k :: SameAt(b, c, k)
  {
    forall k ensures SameAt(b, c, k) {
      if Managed(inst, k) && !(Prunes(inst.spec) && k == FollowerKey(inst)) {
        var id :| Wanted(inst.spec, id) && KeyOf(inst, id) == k;
        SettledStays(b, c, TargetOf(inst, h, id));
      }
    }
  }

  lemma ExternalUnmanaged(inst: TlnDB)
    requires inst.spec.configFrom.Some?
    ensures !Managed(inst, ExternalKey(inst))
  {
  }

  /** A pass does not change the digest it works with. */
  lemma HashIsStable(inst: TlnDB, after: TlnDB, h: string, a: Objects, b: Objects)
    requires OnlyStatus(inst, after) && Admissible(inst, a) && ChildrenAfter(inst, h, a, b)
    ensures Admissible(after, b) && HashFor(after, b) == HashFor(inst, a)
  {
    if inst.spec.configFrom.Some? {
      ExternalUnmanaged(inst);
      assert SameAt(a, b, ExternalKey(inst));
    }
  }

  lemma SettledForOther(inst: TlnDB, after: TlnDB, h: string, b: Objects)
    requires OnlyStatus(inst, after) && AllSettled(inst, h, b)
    ensures AllSettled(after, h, b)
  {
    forall id | Wanted(after.spec, id) ensures SettledAt(b, TargetOf(after, h, id)) {
      SameTargets(inst, after, h, id);
    }
  }

  lemma DoneIsConverged(inst: TlnDB, h: string, a: Objects, w: World)
    requires PassDone(inst, h, a, w) && Active(inst) && Admissible(inst, a) && h == HashFor(inst, a)
    ensures Converged(w.db)
  {
    var after := w.db.inst.value.obj;
    HashIsStable(inst, after, h, a, w.db.objs);
    AfterIsSettled(inst, h, a, w.db.objs);
    SettledForOther(inst, after, h, w.db.objs);
    SameTexts(inst, after, h);
    assert ConvergedWith(after, h, w.db.objs);
  }

  // ---- Convergence ----------------------------------------------------------------------

  /** What users see of the server: everything but resource versions, the clock and `LastUpdateTime`. */
  datatype View = View(children: map<Key, Child>, instance: Option<TlnDB>)

  function ChildrenOf(objs: Objects): map<Key, Child> { map k | k in objs :: objs[k].obj }

  function ViewOf(db: Db): View {
    View(ChildrenOf(db.objs),
         if db.inst.None? then None
         else Some(db.inst.value.obj.(status := db.inst.value.obj.status.(lastUpdateTime := None))))
  }

  lemma SameChildren(a: Objects, b: Objects)
    requires forall k :: SameAt(a, b, k)
    ensures ChildrenOf(a) == ChildrenOf(b)
  {
    forall k ensures k in a <==> k in b { assert SameAt(a, b, k); }
    forall k | k in a ensures a[k].obj == b[k].obj { assert SameAt(a, b, k); }
  }

  /** `w'` is a converged state like `w`. */
  ghost predicate Stays(w: World, w': World) { exists view | view == ViewOf(w.db) :: ConvergedAs(w', view) }

  ghost predicate ConvergedAs(w: World, view: View) { w.schedule == [] && Converged(w.db) && ViewOf(w.db) == view }

  /** A fault-free pass leaves a converged state as it is. */
  lemma ConvergedIsFixed(w: World)
    requires w.schedule == [] && Converged(w.db)
    ensures Stays(w, Reconcile(w).0)
  {
    var inst := w.db.inst.value.obj;
    var h :| ConvergedWith(inst, h, w.db.objs);
    var w' := Reconcile(w).0;
    CalmReconcile(w);
    SettledChildrenStay(inst, h, w.db.objs, w'.db.objs);
    SameChildren(w.db.objs, w'.db.objs);
    assert SameAt(w.db.objs, w'.db.objs, PrimaryKey(inst));
    DoneIsConverged(inst, h, w.db.objs, w');
    assert ConvergedAs(w', ViewOf(w.db));
  }

  ghost predicate NextPass(w: World, w': World) { w' == Reconcile(w).0 }

  ghost predicate PassAt(run: seq<World>, i: nat)
    requires i + 1 < |run|
  {
    NextPass(run[i], run[i + 1])
  }

  ghost predicate PassesAll(run: seq<World>) { forall i: nat | i + 1 < |run| :: PassAt(run, i) }

  /** One pass after the other, as one fact. */
  ghost predicate IsRun(run: seq<World>) { exists r | r == run :: PassesAll(r) }

  lemma StaysTwice(w: World, w1: World, w2: World)
    requires Stays(w, w1) && Stays(w1, w2)
    ensures Stays(w, w2)
  {
  }

  lemma ConvergedStays(w: World, w': World)
    requires w.schedule == [] && Converged(w.db) && NextPass(w, w')
    ensures Stays(w, w')
  {
    ConvergedIsFixed(w);
  }

  /** So does any number of them. */
  lemma ConvergedForGood(run: seq<World>, i: nat, j: nat)
    requires IsRun(run) && i <= j < |run| && Stays(run[i], run[i])
    ensures Stays(run[i], run[j])
  {
    var holds := (k: nat) => k < |run| && Stays(run[i], run[k]);
    forall k: nat, next: nat | i <= k < j && next == k + 1 && holds(k) ensures holds(next) {
      StaysNext(run, i, k, next);
    }
    Climb(holds, i, j);
  }

  lemma StaysNext(run: seq<World>, i: nat, j: nat, k: nat)
    requires IsRun(run) && i <= j && j + 1 == k < |run| && Stays(run[i], run[j])
    ensures Stays(run[i], run[k])
  {
    assert PassAt(run, j) && run[k] == run[j + 1];
    ConvergedStays(run[j], run[k]);
    StaysTwice(run[i], run[j], run[k]);
  }

  lemma StaysAsIs(w: World)
    requires w.schedule == [] && Converged(w.db)
    ensures Stays(w, w)
  {
    assert ConvergedAs(w, ViewOf(w.db));
  }

  // ---- Agreement on the managed fields ----------------------------------------------------

  ghost predicate SetsHaveContainers(objs: Objects) { forall k | k in objs :: HasContainers(k.kind, objs[k].obj) }

  ghost predicate AgreesAt(objs: Objects, t: Target) { t.key in objs && Agrees(t.key.kind, objs[t.key].obj, t.desired) }

  /** Every wanted child agrees with its builder on its managed fields. */
  ghost predicate AllAgree(inst: TlnDB, h: string, objs: Objects) {
    (forall id | Wanted(inst.spec, id) :: AgreesAt(objs, TargetOf(inst, h, id)))
    && (Prunes(inst.spec) ==> FollowerKey(inst) !in objs)
  }

  lemma DesiredHasContainers(inst: TlnDB, h: string, id: ChildId)
    ensures HasContainers(KindOf(id), Desired(inst, h, id))
  {
  }

  lemma PlacedHasContainers(a: Objects, b: Objects, t: Target)
    requires Placed(a, b, t) && SetsHaveContainers(a) && HasContainers(t.key.kind, t.desired)
    ensures HasContainers(t.key.kind, b[t.key].obj)
  {
  }

  lemma PlacedAgrees(a: Objects, b: Objects, t: Target)
    requires Placed(a, b, t) && SetsHaveContainers(a) && HasContainers(t.key.kind, t.desired)
    ensures AgreesAt(b, t)
  {
    PlacedHasContainers(a, b, t);
    PlacedIsSettled(a, b, t);
    SettledIsAgreement(t.key.kind, b[t.key].obj, t.desired);
  }

  lemma AfterAgrees(inst: TlnDB, h: string, a: Objects, b: Objects)
    requires ChildrenAfter(inst, h, a, b) && SetsHaveContainers(a)
    ensures AllAgree(inst, h, b)
  {
    forall id | Wanted(inst.spec, id) ensures AgreesAt(b, TargetOf(inst, h, id)) {
      DesiredHasContainers(inst, h, id);
      PlacedAgrees(a, b, TargetOf(inst, h, id));
    }
  }

  /** One pass of an active instance converges. */
  lemma OnePassConverges(w: World)
    requires w.schedule == [] && w.db.inst.Some? && Active(w.db.inst.value.obj)
    requires Admissible(w.db.inst.value.obj, w.db.objs) && SetsHaveContainers(w.db.objs)
    ensures var w', inst := Reconcile(w).0, w.db.inst.value.obj;
      w'.schedule == [] && Converged(w'.db) && OnlyStatus(inst, w'.db.inst.value.obj)
      && AllAgree(inst, HashFor(inst, w.db.objs), w'.db.objs)
  {
    var w', inst := Reconcile(w).0, w.db.inst.value.obj;
    CalmReconcile(w);
    DoneIsConverged(inst, HashFor(inst, w.db.objs), w.db.objs, w');
    AfterAgrees(inst, HashFor(inst, w.db.objs), w.db.objs, w'.db.objs);
  }

  lemma FinalizerPass(w: World)
    requires w.schedule == [] && w.db.inst.Some? && !w.db.inst.value.obj.deleting && FINALIZER !in w.db.inst.value.obj.finalizers
    ensures var w', inst := Reconcile(w).0, w.db.inst.value.obj;
      w'.schedule == [] && w'.db.objs == w.db.objs && w'.db.inst.Some?
      && w'.db.inst.value.obj == inst.(finalizers := inst.finalizers + {FINALIZER}) && Reconcile(w).1.Requeue?
  {
  }

  /** How many passes a state needs to converge: a second one only to add the finalizer first. */
  function Needed(inst: TlnDB): nat { if FINALIZER in inst.finalizers then 1 else 2 }

  /** After the passes it needs, `w` has become `w'`. */
  ghost predicate Arrived(w: World, w': World)
    requires w.db.inst.Some? && Admissible(w.db.inst.value.obj, w.db.objs)
  {
    var inst := w.db.inst.value.obj;
    w'.schedule == [] && Converged(w'.db) && w'.db.inst.value.obj.spec == inst.spec
    && AllAgree(inst, HashFor(inst, w.db.objs), w'.db.objs)
  }

  lemma TwoPassesConverge(w: World, w1: World, w2: World)
    requires w.schedule == [] && w.db.inst.Some? && !w.db.inst.value.obj.deleting && FINALIZER !in w.db.inst.value.obj.finalizers
    requires Admissible(w.db.inst.value.obj, w.db.objs) && SetsHaveContainers(w.db.objs)
    requires NextPass(w, w1) && NextPass(w1, w2)
    ensures Arrived(w, w2)
  {
    FinalizerPass(w);
    OnePassConverges(w1);
    var inst := w.db.inst.value.obj;
    HeldAgrees(inst, w1.db.inst.value.obj, HashFor(inst, w.db.objs), w2.db.objs);
  }

  /**
   From any store, at most one finalizer pass and one more fault-free pass make every wanted
   child agree with its builder; after that no further pass changes anything.
   */
  lemma Converges(run: seq<World>, later: nat)
    requires IsRun(run) && run != [] && run[0].schedule == [] && run[0].db.inst.Some? && !run[0].db.inst.value.obj.deleting
    requires Admissible(run[0].db.inst.value.obj, run[0].db.objs) && SetsHaveContainers(run[0].db.objs)
    requires Needed(run[0].db.inst.value.obj) <= later < |run|
    ensures var n := Needed(run[0].db.inst.value.obj);
      Arrived(run[0], run[n]) && ViewOf(run[n].db) == ViewOf(run[later].db)
  {
    if Needed(run[0].db.inst.value.obj) == 1 {
      OnePassConverges(run[0]);
      assert PassAt(run, 0);
      LaterUnchanged(run, 1, later);
    } else {
      assert PassAt(run, 0) && PassAt(run, 1);
      TwoPassesConverge(run[0], run[1], run[2]);
      LaterUnchanged(run, 2, later);
    }
  }

  lemma LaterUnchanged(run: seq<World>, n: nat, later: nat)
    requires IsRun(run) && n <= later < |run| && run[n].schedule == [] && Converged(run[n].db)
    ensures ViewOf(run[n].db) == ViewOf(run[later].db)
  {
    StaysAsIs(run[n]);
    ConvergedForGood(run, n, later);
  }

  lemma HeldAgrees(inst: TlnDB, held: TlnDB, h: string, objs: Objects)
    requires held == inst.(finalizers := held.finalizers) && AllAgree(held, h, objs)
    ensures AllAgree(inst, h, objs)
  {
    forall id | Wanted(inst.spec, id) ensures AgreesAt(objs, TargetOf(inst, h, id)) {
      SameTargets(inst, held, h, id);
    }
  }
}
