/**
 Who wrote a stored StatefulSet: the event that created it and the event that last
 wrote its replicas and template, each with the spec the controller then held.
 */
module Authorship {
  import opened Api
  import opened Cluster
  import opened Invariants
  import opened Safety
  import opened Runs
  import opened Histories

  // ---- One key over time -------------------------------------------------------------------

  /** The set under a key at every moment, and the author of every event in between. */
  datatype SetHistory = SetHistory(states: seq<Option<StatefulSetSpec>>, authors: seq<Option<Spec>>)

  predicate Whole(h: SetHistory) { |h.states| == |h.authors| + 1 }

  predicate Wrote(h: SetHistory, n: nat)
    requires Whole(h) && n < |h.authors|
  {
    h.states[n + 1].Some? && h.states[n] != h.states[n + 1]
  }

  ghost predicate Authored(s: Scope, key: Key, h: SetHistory, n: nat)
    requires Whole(h) && n < |h.authors|
  {
    Wrote(h, n) ==> h.authors[n].Some? && AuthoredBy(s, h.authors[n].value, key, h.states[n], h.states[n + 1].value)
  }

  ghost predicate HistoryOk(s: Scope, key: Key, h: SetHistory) {
    Whole(h) && forall n | 0 <= n < |h.authors| :: Authored(s, key, h, n)
  }

  /** The set of moment `i` was created by event `c`, has existed since, and was last written by event `l`. */
  ghost predicate WrittenBy(h: SetHistory, c: nat, l: nat, i: nat) {
    Whole(h) && c <= l < i < |h.states| && h.states[c].None? && Wrote(h, l)
    && (forall n | c < n <= i :: h.states[n].Some?)
    && (forall n | l < n < i :: !Wrote(h, n))
  }

  /** A set that is there and was not there has a creating event and a last writing event. */
  lemma {:induction false} WritersExist(h: SetHistory, a: nat, i: nat) returns (c: nat, l: nat)
    requires Whole(h) && a <= i < |h.states| && h.states[a].None? && h.states[i].Some?
    ensures a <= c && WrittenBy(h, c, l, i)
    decreases i
  {
    if h.states[i - 1].None? {
      c, l := i - 1, i - 1;
    } else {
      c, l := WritersExist(h, a, i - 1);
      if Wrote(h, i - 1) { l := i - 1; }
    }
  }

  datatype Writers = Writers(creation: nat, last: nat)

  /** The same, computed. */
  function WritersOf(h: SetHistory, i: nat): (r: Option<Writers>)
    requires Whole(h) && i < |h.states|
    ensures r.Some? ==> r.value.creation <= r.value.last < i
  {
    if i == 0 || h.states[i].None? then None
    else if h.states[i - 1].None? then Some(Writers(i - 1, i - 1))
    else match WritersOf(h, i - 1)
      case None => None
      case Some(before) => Some(if Wrote(h, i - 1) then Writers(before.creation, i - 1) else before)
  }

  lemma {:induction false} WritersAreUnique(h: SetHistory, c: nat, l: nat, i: nat)
    requires WrittenBy(h, c, l, i)
    ensures WritersOf(h, i) == Some(Writers(c, l))
    decreases i
  {
    if c < i - 1 {
      if l == i - 1 {
        var c', l' := WritersExist(h, c, i - 1);
        assert c' == c;
        WritersAreUnique(h, c, l', i - 1);
      } else {
        WritersAreUnique(h, c, l, i - 1);
      }
    }
  }

  // ---- What the authors explain ---------------------------------------------------------------

  /** The set is what the two specs build: the first one created it, the second one wrote replicas and template. */
  ghost predicate ExplainedBy(s: Scope, key: Key, sts: StatefulSetSpec, creator: Spec, writer: Spec) {
    exists v: Provenance :: v.creator.inst.spec == creator && v.writer.inst.spec == writer && Explains(s, key, sts, v)
  }

  lemma CreationExplains(s: Scope, key: Key, sts: StatefulSetSpec, spec: Spec)
    requires AuthoredBy(s, spec, key, None, sts)
    ensures ExplainedBy(s, key, sts, spec, spec)
  {
    var role, src: Source :| src.inst.spec == spec && WrittenFrom(s, key, None, sts, role, src);
    assert Explains(s, key, sts, Provenance(role, src, src));
  }

  lemma RewriteExplains(s: Scope, key: Key, was: StatefulSetSpec, sts: StatefulSetSpec, creator: Spec, writer: Spec, spec: Spec)
    requires ExplainedBy(s, key, was, creator, writer) && AuthoredBy(s, spec, key, Some(was), sts)
    ensures ExplainedBy(s, key, sts, creator, spec)
  {
    var v: Provenance :| v.creator.inst.spec == creator && v.writer.inst.spec == writer && Explains(s, key, was, v);
    var role, src: Source :| src.inst.spec == spec && WrittenFrom(s, key, Some(was), sts, role, src);
    SameKeySameRole(s, key, role, v.role);
    assert Explains(s, key, sts, v.(writer := src));
  }

  lemma FirstWriteExplains(s: Scope, key: Key, h: SetHistory, c: nat)
    requires HistoryOk(s, key, h) && c < |h.authors| && h.states[c].None? && Wrote(h, c)
    ensures h.authors[c].Some? && ExplainedBy(s, key, h.states[c + 1].value, h.authors[c].value, h.authors[c].value)
  {
    assert Authored(s, key, h, c);
    CreationExplains(s, key, h.states[c + 1].value, h.authors[c].value);
  }

  lemma NextWriteExplains(s: Scope, key: Key, h: SetHistory, creator: Spec, writer: Spec, l: nat)
    requires HistoryOk(s, key, h) && l < |h.authors| && h.states[l].Some? && Wrote(h, l)
    requires ExplainedBy(s, key, h.states[l].value, creator, writer)
    ensures h.authors[l].Some? && ExplainedBy(s, key, h.states[l + 1].value, creator, h.authors[l].value)
  {
    assert Authored(s, key, h, l);
    RewriteExplains(s, key, h.states[l].value, h.states[l + 1].value, creator, writer, h.authors[l].value);
  }

  lemma {:induction false} WritersExplain(s: Scope, key: Key, h: SetHistory, i: nat)
    requires HistoryOk(s, key, h) && i < |h.states| && WritersOf(h, i).Some?
    ensures var by_ := WritersOf(h, i).value;
      h.authors[by_.creation].Some? && h.authors[by_.last].Some?
      && ExplainedBy(s, key, h.states[i].value, h.authors[by_.creation].value, h.authors[by_.last].value)
  {
    if h.states[i - 1].None? {
      FirstWriteExplains(s, key, h, i - 1);
    } else {
      WritersExplain(s, key, h, i - 1);
      var before := WritersOf(h, i - 1).value;
      if Wrote(h, i - 1) {
        NextWriteExplains(s, key, h, h.authors[before.creation].value, h.authors[before.last].value, i - 1);
      }
    }
  }

  // ---- The history in a run -------------------------------------------------------------------

  function HistoryOf(w: World, key: Key): (h: SetHistory)
    ensures Whole(h) && |h.authors| == |w.log|
    ensures forall i | 0 <= i <= |w.log| :: h.states[i] == SetIn(Moment(w, i), key)
    ensures forall i | 0 <= i < |w.log| :: h.authors[i] == w.log[i].author
  {
    SetHistory(seq(|w.log| + 1, i requires 0 <= i <= |w.log| => SetIn(Moment(w, i), key)),
               seq(|w.log|, i requires 0 <= i < |w.log| => w.log[i].author))
  }

  lemma EventIsAuthored(s: Scope, w: World, key: Key, n: nat)
    requires WorldOk(s, w) && n < |w.log|
    ensures Authored(s, key, HistoryOf(w, key), n)
  {
    NextMoment(s, w, n);
    assert EventOk(s, w.log[n]);
    assert WritesSet(w.log[n], key) <==> Wrote(HistoryOf(w, key), n);
  }

  lemma HistoryIsOk(s: Scope, w: World, key: Key)
    requires WorldOk(s, w)
    ensures HistoryOk(s, key, HistoryOf(w, key))
  {
    forall n | 0 <= n < |w.log| ensures Authored(s, key, HistoryOf(w, key), n) { EventIsAuthored(s, w, key, n); }
  }

  /** In every run, edits at any time included, a set is what the specs held at its creation and at its last write build. */
  lemma RunSetsAreAuthored(s: Scope, w: World, items: seq<Item>, key: Key, c: nat, l: nat, i: nat)
    requires RunOk(s, w, items) && WrittenBy(HistoryOf(Execute(w, items), key), c, l, i)
    ensures var h := HistoryOf(Execute(w, items), key);
      h.authors[c].Some? && h.authors[l].Some?
      && ExplainedBy(s, key, h.states[i].value, h.authors[c].value, h.authors[l].value)
  {
    RunIsSafe(s, w, items);
    HistoryIsOk(s, Execute(w, items), key);
    WritersAreUnique(HistoryOf(Execute(w, items), key), c, l, i);
    WritersExplain(s, key, HistoryOf(Execute(w, items), key), i);
  }
}
