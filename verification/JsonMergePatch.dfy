/**
 JSON merge patches, as section 2 of RFC 7396 applies them and as `client.MergeFrom`
 computes them, and what they do to an encoded TlnDB.
 */
module JsonMergePatch {
  import opened Api
  import opened Cluster

  datatype Json =
    | Null | Bool(flag: bool) | Number(value: int) | Text(text: string) | Array(items: seq<Json>) | Object(fields: map<string, Json>)

  // ---- Applying and computing patches ---------------------------------------------------

  /** `MergePatch(Target, Patch)` of RFC 7396; a null in the patch removes. */
  function Merge(target: Json, patch: Json): Json
    decreases patch
  {
    if !patch.Object? then patch
    else
      var base := if target.Object? then target.fields else map[];
      Object(map k | k in base.Keys + patch.fields.Keys && !(k in patch.fields && patch.fields[k].Null?) ::
        if k !in patch.fields then base[k] else Merge(if k in base then base[k] else Null, patch.fields[k]))
  }

  /** The fields that differ: removed ones as null, changed objects by their own differences, the rest as they are to be. */
  function Diff(a: map<string, Json>, b: map<string, Json>): map<string, Json>
    decreases Object(b)
  {
    map k | k in a.Keys + b.Keys && !(k in a && k in b && a[k] == b[k]) ::
      if k !in b then Null
      else if k in a && a[k].Object? && b[k].Object? then Object(Diff(a[k].fields, b[k].fields))
      else b[k]
  }

  function Patched(target: map<string, Json>, a: map<string, Json>, b: map<string, Json>): map<string, Json> {
    Merge(Object(target), Object(Diff(a, b))).fields
  }

  // ---- Round trip -------------------------------------------------------------------------

  /** No null stands as a field; nulls inside arrays do not matter. */
  predicate NoNulls(j: Json)
    decreases j
  {
    j.Object? ==> forall k | k in j.fields :: !j.fields[k].Null? && NoNulls(j.fields[k])
  }

  /** Every null field of `b` is one that `a` has too. */
  predicate Expressible(a: map<string, Json>, b: map<string, Json>)
    decreases Object(b)
  {
    forall k | k in b ::
      (k in a && a[k] == b[k])
      || (!b[k].Null? &&
          if k in a && a[k].Object? && b[k].Object? then Expressible(a[k].fields, b[k].fields) else NoNulls(b[k]))
  }

  /** Onto something that is no object, a patch arrives whole exactly when it has no nulls. */
  lemma {:induction false} MergeOntoNothing(target: Json, patch: Json)
    requires !target.Object?
    ensures Merge(target, patch) == patch <==> NoNulls(patch)
    decreases patch
  {
    if patch.Object? {
      var merged := Merge(target, patch);
      forall k | k in patch.fields ensures Merge(Null, patch.fields[k]) == patch.fields[k] <==> NoNulls(patch.fields[k]) {
        MergeOntoNothing(Null, patch.fields[k]);
      }
      assert forall k | k in patch.fields && !patch.fields[k].Null? :: k in merged.fields && merged.fields[k] == Merge(Null, patch.fields[k]);
      if NoNulls(patch) {
        assert merged.fields == patch.fields;
      } else {
        var k :| k in patch.fields && (patch.fields[k].Null? || !NoNulls(patch.fields[k]));
        assert patch.fields[k].Null? ==> k !in merged.fields;
      }
    }
  }

  /** What one field becomes. */
  predicate FieldArrives(a: map<string, Json>, b: map<string, Json>, k: string)
    requires k in b
  {
    (k in a && a[k] == b[k])
    || (!b[k].Null? &&
        if k in a && a[k].Object? && b[k].Object? then Patched(a[k].fields, a[k].fields, b[k].fields) == b[k].fields
        else Merge(if k in a then a[k] else Null, b[k]) == b[k])
  }

  lemma PatchedField(a: map<string, Json>, b: map<string, Json>, k: string)
    ensures k !in b ==> k !in Patched(a, a, b)
    ensures k in b ==> (k in Patched(a, a, b) && Patched(a, a, b)[k] == b[k] <==> FieldArrives(a, b, k))
  {
    var patch := Diff(a, b);
    if k in b && !(k in a && a[k] == b[k]) {
      assert k in patch;
    }
  }

  lemma ArrivesFieldwise(a: map<string, Json>, b: map<string, Json>)
    ensures Patched(a, a, b) == b <==> forall k | k in b :: FieldArrives(a, b, k)
  {
    var after := Patched(a, a, b);
    forall k ensures (k !in b ==> k !in after) && (k in b ==> (k in after && after[k] == b[k] <==> FieldArrives(a, b, k))) {
      PatchedField(a, b, k);
    }
    if forall k | k in b :: FieldArrives(a, b, k) {
      assert after == b;
    }
  }

  /** The patch from `a` to `b`, applied to `a`, gives `b` exactly when `b` brings no null fields of its own. */
  lemma {:induction false} MergePatchRoundTrip(a: map<string, Json>, b: map<string, Json>)
    ensures Patched(a, a, b) == b <==> Expressible(a, b)
    decreases Object(b)
  {
    forall k | k in b
      ensures FieldArrives(a, b, k) <==>
        (k in a && a[k] == b[k])
        || (!b[k].Null? &&
            if k in a && a[k].Object? && b[k].Object? then Expressible(a[k].fields, b[k].fields) else NoNulls(b[k]))
    {
      if k in a && a[k].Object? && b[k].Object? {
        MergePatchRoundTrip(a[k].fields, b[k].fields);
      } else if b[k].Object? {
        MergeOntoNothing(if k in a then a[k] else Null, b[k]);
      }
    }
    ArrivesFieldwise(a, b);
  }

  // ---- Flat objects -------------------------------------------------------------------------

  function Field(fields: map<string, Json>, k: string): Option<Json> { if k in fields then Some(fields[k]) else None }

  /** Fields are texts, numbers and arrays. */
  predicate Flat(fields: map<string, Json>) { forall k | k in fields :: !fields[k].Object? && !fields[k].Null? }

  /** A patch between flat objects overwrites the fields that differ and leaves the rest of any target alone. */
  lemma FlatPatch(target: map<string, Json>, a: map<string, Json>, b: map<string, Json>, k: string)
    requires Flat(a) && Flat(b)
    ensures Field(Patched(target, a, b), k) == if Field(a, k) == Field(b, k) then Field(target, k) else Field(b, k)
  {
    var patch, after := Diff(a, b), Patched(target, a, b);
    assert k in patch <==> Field(a, k) != Field(b, k);
    if k in patch {
      assert patch[k] == if k in b then b[k] else Null;
      assert k in b ==> k in after && after[k] == Merge(if k in target then target[k] else Null, b[k]);
    } else {
      assert k in after <==> k in target;
    }
  }

  /** A patch between objects that differ in one inner object patches that inner object. */
  lemma NestedPatch(target: map<string, Json>, a: map<string, Json>, b: map<string, Json>, key: string, inner: map<string, Json>)
    requires key in a && a[key].Object? && b == a[key := Object(inner)] && key in target && target[key].Object?
    ensures Patched(target, a, b) == target[key := Object(Patched(target[key].fields, a[key].fields, inner))]
  {
    if a[key] == b[key] {
      assert a == b;
      EmptyPatch(target, a);
      EmptyPatch(target[key].fields, inner);
    } else {
      var patch := Diff(a, b);
      assert patch == map[key := Object(Diff(a[key].fields, inner))];
      MergeOneField(target, key, patch[key]);
    }
  }

  lemma EmptyPatch(target: map<string, Json>, a: map<string, Json>)
    ensures Patched(target, a, a) == target
  {
    assert Diff(a, a) == map[];
  }

  lemma MergeOneField(target: map<string, Json>, key: string, value: Json)
    requires !value.Null? && key in target
    ensures Merge(Object(target), Object(map[key := value])).fields == target[key := Merge(target[key], value)]
  {
  }

  // ---- The encoded status ---------------------------------------------------------------------

  function PhaseText(phase: Phase): string {
    match phase
    case Unset => ""
    case Provisioning => "Provisioning"
    case Running => "Running"
    case Degraded => "Degraded"
    case Failed => "Failed"
    case Terminating => "Terminating"
  }

  function ConditionTypeText(kind: ConditionType): string {
    match kind
    case StatefulSetReady => "StatefulSetReady"
    case ConfigMapReady => "ConfigMapReady"
    case ServiceReady => "ServiceReady"
    case RBACReady => "RBACReady"
    case NetworkPolicyReady => "NetworkPolicyReady"
    case ServiceMonitorReady => "ServiceMonitorReady"
  }

  /** A condition's fields, `observedGeneration` left out when zero. */
  function ConditionField(c: Condition, k: string): Option<Json> {
    if k == "type" then Some(Text(ConditionTypeText(c.kind)))
    else if k == "status" then Some(Text(if c.status then "True" else "False"))
    else if k == "reason" then Some(Text(c.reason))
    else if k == "message" then Some(Text(c.message))
    else if k == "lastTransitionTime" then Some(Number(c.since))
    else if k == "observedGeneration" && c.observedGeneration != 0 then Some(Number(c.observedGeneration))
    else None
  }

  const CONDITION_KEYS := {"type", "status", "reason", "message", "lastTransitionTime", "observedGeneration"}

  function EncodeCondition(c: Condition): Json {
    Object(map k | k in CONDITION_KEYS && ConditionField(c, k).Some? :: ConditionField(c, k).value)
  }

  function EncodeConditions(cs: seq<Condition>): Json { Array(seq(|cs|, i requires 0 <= i < |cs| => EncodeCondition(cs[i]))) }

  function EncodeTexts(texts: seq<string>): Json { Array(seq(|texts|, i requires 0 <= i < |texts| => Text(texts[i]))) }

  /** A status field as encoded: the zero value of every field is left out. */
  function StatusField(s: Status, k: string): Option<Json> {
    if k == "phase" then (if s.phase.Unset? then None else Some(Text(PhaseText(s.phase))))
    else if k == "conditions" then (if s.conditions == [] then None else Some(EncodeConditions(s.conditions)))
    else if k == "observedGeneration" then (if s.observedGeneration == 0 then None else Some(Number(s.observedGeneration)))
    else if k == "readyReplicas" then (if s.readyReplicas == 0 then None else Some(Number(s.readyReplicas)))
    else if k == "currentImage" then (if s.currentImage == "" then None else Some(Text(s.currentImage)))
    else if k == "managedResources" then (if s.managedResources == [] then None else Some(EncodeTexts(s.managedResources)))
    else if k == "lastUpdateTime" then (if s.lastUpdateTime.None? then None else Some(Number(s.lastUpdateTime.value)))
    else None
  }

  const STATUS_KEYS :=
    {"phase", "conditions", "observedGeneration", "readyReplicas", "currentImage", "managedResources", "lastUpdateTime"}

  function StatusFields(s: Status): map<string, Json> {
    map k | k in STATUS_KEYS && StatusField(s, k).Some? :: StatusField(s, k).value
  }

  lemma StatusLookup(s: Status, k: string)
    ensures Field(StatusFields(s), k) == StatusField(s, k)
    ensures Flat(StatusFields(s))
  {
  }

  // ---- Encodings are faithful -------------------------------------------------------------------

  lemma PhaseTextInjective(a: Phase, b: Phase)
    requires PhaseText(a) == PhaseText(b)
    ensures a == b
  {
    assert |PhaseText(a)| == |PhaseText(b)|;
  }

  lemma ConditionTypeTextInjective(a: ConditionType, b: ConditionType)
    requires ConditionTypeText(a) == ConditionTypeText(b)
    ensures a == b
  {
    assert |ConditionTypeText(a)| == |ConditionTypeText(b)|;
  }

  lemma ConditionLookup(c: Condition, k: string)
    ensures Field(EncodeCondition(c).fields, k) == ConditionField(c, k)
  {
  }

  lemma ConditionInjective(a: Condition, b: Condition)
    requires EncodeCondition(a) == EncodeCondition(b)
    ensures a == b
  {
    forall k ensures ConditionField(a, k) == ConditionField(b, k) {
      ConditionLookup(a, k);
      ConditionLookup(b, k);
    }
    assert ConditionField(a, "type") == ConditionField(b, "type");
    ConditionTypeTextInjective(a.kind, b.kind);
    assert |"True"| != |"False"|;
    assert ConditionField(a, "status") == ConditionField(b, "status");
    assert ConditionField(a, "reason") == ConditionField(b, "reason");
    assert ConditionField(a, "message") == ConditionField(b, "message");
    assert ConditionField(a, "lastTransitionTime") == ConditionField(b, "lastTransitionTime");
    assert ConditionField(a, "observedGeneration") == ConditionField(b, "observedGeneration");
  }

  lemma ConditionsInjective(a: seq<Condition>, b: seq<Condition>)
    requires EncodeConditions(a) == EncodeConditions(b)
    ensures a == b
  {
    assert |EncodeConditions(a).items| == |EncodeConditions(b).items|;
    forall i | 0 <= i < |a| ensures a[i] == b[i] {
      assert EncodeConditions(a).items[i] == EncodeConditions(b).items[i];
      ConditionInjective(a[i], b[i]);
    }
  }

  lemma TextsInjective(a: seq<string>, b: seq<string>)
    requires EncodeTexts(a) == EncodeTexts(b)
    ensures a == b
  {
    assert |EncodeTexts(a).items| == |EncodeTexts(b).items|;
    forall i | 0 <= i < |a| ensures a[i] == b[i] { assert EncodeTexts(a).items[i] == EncodeTexts(b).items[i]; }
  }

  /** Merging field by field is merging the encodings. */
  lemma MergedStatusField(base: Status, next: Status, stored: Status, k: string)
    ensures StatusField(MergeStatus(base, next, stored), k) ==
      if StatusField(base, k) == StatusField(next, k) then StatusField(stored, k) else StatusField(next, k)
  {
    if k == "phase" && PhaseText(base.phase) == PhaseText(next.phase) { PhaseTextInjective(base.phase, next.phase); }
    if k == "conditions" && EncodeConditions(base.conditions) == EncodeConditions(next.conditions) {
      ConditionsInjective(base.conditions, next.conditions);
    }
    if k == "managedResources" && EncodeTexts(base.managedResources) == EncodeTexts(next.managedResources) {
      TextsInjective(base.managedResources, next.managedResources);
    }
  }

  /** Applying the patch between two statuses to any stored status is `MergeStatus`. */
  lemma StatusPatchIsMergeStatus(base: Status, next: Status, stored: Status)
    ensures Patched(StatusFields(stored), StatusFields(base), StatusFields(next)) == StatusFields(MergeStatus(base, next, stored))
  {
    var after, merged := Patched(StatusFields(stored), StatusFields(base), StatusFields(next)), StatusFields(MergeStatus(base, next, stored));
    forall k ensures Field(after, k) == Field(merged, k) {
      StatusLookup(base, k);
      StatusLookup(next, k);
      StatusLookup(stored, k);
      StatusLookup(MergeStatus(base, next, stored), k);
      FlatPatch(StatusFields(stored), StatusFields(base), StatusFields(next), k);
      MergedStatusField(base, next, stored, k);
    }
    SameFields(after, merged);
  }

  lemma SameFields(a: map<string, Json>, b: map<string, Json>)
    requires forall k :: Field(a, k) == Field(b, k)
    ensures a == b
  {
    forall k ensures k in a <==> k in b { assert Field(a, k) == Field(b, k); }
    forall k | k in a ensures a[k] == b[k] { assert Field(a, k) == Field(b, k); }
  }

  // ---- The encoded object -----------------------------------------------------------------------

  /** A TlnDB with metadata and spec as they are. */
  function Document(metadata: Json, spec: Json, status: Status): map<string, Json> {
    map["metadata" := metadata, "spec" := spec, "status" := Object(StatusFields(status))]
  }

  /**
   `client.MergeFrom` on a copy whose status alone changed: whatever the server holds by now, its metadata
   and spec stay and its status becomes the one `PatchStatus` computes.
   */
  lemma DocumentPatchIsMergeStatus(metadata: Json, spec: Json, base: Status, next: Status, metadata': Json, spec': Json, stored: Status)
    ensures Patched(Document(metadata', spec', stored), Document(metadata, spec, base), Document(metadata, spec, next))
            == Document(metadata', spec', MergeStatus(base, next, stored))
  {
    var a, b, target := Document(metadata, spec, base), Document(metadata, spec, next), Document(metadata', spec', stored);
    StatusPatchIsMergeStatus(base, next, stored);
    DocumentWith(metadata, spec, base, next);
    DocumentWith(metadata', spec', stored, MergeStatus(base, next, stored));
    NestedPatch(target, a, b, "status", StatusFields(next));
  }

  lemma DocumentWith(metadata: Json, spec: Json, a: Status, b: Status)
    ensures "status" in Document(metadata, spec, a) && Document(metadata, spec, a)["status"] == Object(StatusFields(a))
    ensures Document(metadata, spec, b) == Document(metadata, spec, a)["status" := Object(StatusFields(b))]
  {
  }

  /** In particular, on a store that equals the base the patch yields exactly the changed status. */
  lemma PatchYieldsIntendedStatus(metadata: Json, spec: Json, base: Status, next: Status)
    ensures Patched(Document(metadata, spec, base), Document(metadata, spec, base), Document(metadata, spec, next))
            == Document(metadata, spec, next)
  {
    DocumentPatchIsMergeStatus(metadata, spec, base, next, metadata, spec, base);
  }
}
