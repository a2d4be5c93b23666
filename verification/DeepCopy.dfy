/**
 The status as Go holds it: a struct with two slices and a pointer.  The generated
 `DeepCopyInto` gives every merge patch a base that later in-place changes of the
 instance cannot reach.
 */
module DeepCopy {
  import opened Api
  import opened Controller

  /** What a `*metav1.Time` points to. */
  class TimeCell {
    var at: int

    constructor (at: int)
      ensures this.at == at
    {
      this.at := at;
    }
  }

  class StatusStruct {
    var phase: Phase
    var conditions: array?<Condition>
    var observedGeneration: int
    var readyReplicas: int
    var currentImage: string
    var managedResources: array?<string>
    var lastUpdateTime: TimeCell?

    /** Everything reachable from the struct. */
    ghost function Parts(): set<object>
      reads this
    {
      {this} + (if conditions == null then {} else {conditions})
      + (if managedResources == null then {} else {managedResources})
      + (if lastUpdateTime == null then {} else {lastUpdateTime})
    }

    /** The status it represents; a nil slice and an empty one are the same. */
    ghost function Value(): Status
      reads this, Parts()
    {
      Status(phase,
             if conditions == null then [] else conditions[..],
             observedGeneration, readyReplicas, currentImage,
             if managedResources == null then [] else managedResources[..],
             if lastUpdateTime == null then None else Some(lastUpdateTime.at))
    }

    /** A zero status. */
    constructor ()
      ensures Value() == Status(Unset, [], 0, 0, "", [], None) && fresh(Parts())
    {
      phase, conditions, observedGeneration, readyReplicas := Unset, null, 0, 0;
      currentImage, managedResources, lastUpdateTime := "", null, null;
    }

    /** `*out = *in`: slices and pointers are shared. */
    method CopyFields(out: StatusStruct)
      modifies out
      ensures out.phase == old(phase) && out.observedGeneration == old(observedGeneration)
      ensures out.readyReplicas == old(readyReplicas) && out.currentImage == old(currentImage)
      ensures out.conditions == old(conditions) && out.managedResources == old(managedResources)
      ensures out.lastUpdateTime == old(lastUpdateTime)
    {
      out.phase, out.conditions, out.observedGeneration := phase, conditions, observedGeneration;
      out.readyReplicas, out.currentImage := readyReplicas, currentImage;
      out.managedResources, out.lastUpdateTime := managedResources, lastUpdateTime;
    }

    /** The generated copy: the same value, and nothing of it shared. */
    method DeepCopyInto(out: StatusStruct)
      requires out != this
      modifies out
      ensures out.Value() == old(Value()) && fresh(out.Parts() - {out})
      ensures Parts() == old(Parts()) && Value() == old(Value())
    {
      CopyFields(out);
      if conditions != null {
        out.conditions := CopyConditions(conditions);
      }
      if managedResources != null {
        out.managedResources := CopyTexts(managedResources);
      }
      if lastUpdateTime != null {
        out.lastUpdateTime := new TimeCell(lastUpdateTime.at);
      }
    }

    method DeepCopy() returns (out: StatusStruct)
      ensures out.Value() == Value() && fresh(out.Parts())
      ensures Parts() == old(Parts()) && Value() == old(Value())
    {
      out := new StatusStruct();
      DeepCopyInto(out);
    }

    /** `apimeta.SetStatusCondition`: an existing condition is overwritten where it stands, a new one is appended. */
    method SetStatusCondition(next: Condition)
      modifies this, conditions
      ensures conditions == old(conditions) || fresh(conditions)
      ensures old(conditions != null) && |SetCondition(old(conditions[..]), next)| == old(conditions.Length) ==> conditions == old(conditions)
      ensures (if conditions == null then [] else conditions[..]) ==
              SetCondition(old(if conditions == null then [] else conditions[..]), next)
      ensures phase == old(phase) && observedGeneration == old(observedGeneration) && readyReplicas == old(readyReplicas)
      ensures currentImage == old(currentImage) && managedResources == old(managedResources) && lastUpdateTime == old(lastUpdateTime)
    {
      if conditions == null {
        conditions := new Condition[1](_ => next);
        assert conditions[..] == [next];
        return;
      }
      var n := 0;
      while n < conditions.Length && conditions[n].kind != next.kind
        invariant 0 <= n <= conditions.Length
        invariant forall i | 0 <= i < n :: conditions[i].kind != next.kind
      {
        n := n + 1;
      }
      SetConditionAt(conditions[..], next, n);
      if n < conditions.Length {
        ghost var before := conditions[..];
        conditions[n] := Refresh(conditions[n], next);
        assert conditions[..] == before[..n] + [Refresh(before[n], next)] + before[n + 1..];
      } else {
        var old_ := conditions;
        conditions := new Condition[old_.Length + 1](i requires 0 <= i <= old_.Length reads old_ =>
          if i < old_.Length then old_[i] else next);
        assert conditions[..] == old_[..] + [next];
      }
    }
  }

  const ZERO_CONDITION := Condition(StatefulSetReady, false, "", "", 0, 0)

  method CopyConditions(from: array<Condition>) returns (to: array<Condition>)
    ensures fresh(to) && to[..] == from[..]
  {
    to := new Condition[from.Length](_ => ZERO_CONDITION);
    var i := 0;
    while i < from.Length
      invariant 0 <= i <= from.Length && to.Length == from.Length
      invariant to[..i] == from[..i]
    {
      to[i] := from[i];
      i := i + 1;
    }
    assert to[..] == to[..i] && from[..] == from[..i];
  }

  method CopyTexts(from: array<string>) returns (to: array<string>)
    ensures fresh(to) && to[..] == from[..]
  {
    to := new string[from.Length](_ => "");
    forall i | 0 <= i < from.Length { to[i] := from[i]; }
    assert to[..] == from[..];
  }

  /** Where the first condition of the type stands is where the next one goes. */
  lemma {:induction false} SetConditionAt(conditions: seq<Condition>, next: Condition, n: nat)
    requires n <= |conditions| && forall i | 0 <= i < n :: conditions[i].kind != next.kind
    requires n < |conditions| ==> conditions[n].kind == next.kind
    ensures SetCondition(conditions, next) ==
      if n < |conditions| then conditions[..n] + [Refresh(conditions[n], next)] + conditions[n + 1..] else conditions + [next]
  {
    if n > 0 {
      SetConditionAt(conditions[1..], next, n - 1);
    }
  }

  // ---- The base of a merge patch ------------------------------------------------------------

  /** `setCondition` up to its patch: the base still shows the status before the change. */
  method ConditionWithBase(instance: StatusStruct, next: Condition) returns (base: StatusStruct)
    modifies instance, instance.conditions
    ensures base.Value() == old(instance.Value()) && fresh(base.Parts())
    ensures instance.Value() == old(instance.Value()).(conditions := SetCondition(old(instance.Value().conditions), next))
  {
    base := instance.DeepCopy();
    instance.SetStatusCondition(next);
  }

  /** `setPhase` up to its patch. */
  method PhaseWithBase(instance: StatusStruct, phase: Phase, now: int) returns (base: StatusStruct)
    modifies instance
    ensures base.Value() == old(instance.Value()) && fresh(base.Parts())
    ensures instance.Value() == old(instance.Value()).(phase := phase, lastUpdateTime := Some(now))
  {
    base := instance.DeepCopy();
    instance.phase := phase;
    instance.lastUpdateTime := new TimeCell(now);
  }

  /** With the fields alone copied, overwriting a condition in place changes the base as well, and the patch would be empty. */
  method ConditionWithShallowBase(instance: StatusStruct, next: Condition) returns (base: StatusStruct)
    requires instance.conditions != null && exists i | 0 <= i < instance.conditions.Length :: instance.conditions[i].kind == next.kind
    modifies instance, instance.conditions
    ensures base.Value() == instance.Value()
    ensures instance.Value() == old(instance.Value()).(conditions := SetCondition(old(instance.Value().conditions), next))
  {
    base := new StatusStruct();
    instance.CopyFields(base);
    SetConditionKeepsLength(instance.conditions[..], next);
    instance.SetStatusCondition(next);
  }

  lemma {:induction false} SetConditionKeepsLength(conditions: seq<Condition>, next: Condition)
    requires exists i | 0 <= i < |conditions| :: conditions[i].kind == next.kind
    ensures |SetCondition(conditions, next)| == |conditions|
  {
    if conditions[0].kind != next.kind {
      var i :| 0 <= i < |conditions| && conditions[i].kind == next.kind;
      assert conditions[1..][i - 1].kind == next.kind;
      SetConditionKeepsLength(conditions[1..], next);
    }
  }
}
