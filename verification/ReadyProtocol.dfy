/**
 The "ready protocol" (operator/api/pulumi/v1/stack_types.go): three mutators over the
 condition list of a Stack.  `Set` and `Remove` are the list operations of apimachinery's
 `meta` package that the mutators are built from.
 */
module ReadyProtocol {
  import opened Prelude

  datatype ConditionType = ReadyCondition | StalledCondition | ReconcilingCondition | OtherCondition(name: string)

  datatype Reason =
    | NotReadyInProgress | NotReadyStalled | ProcessingCompleted
    | StackProcessing | RetryingAfterFailure | PreviewFailed | PrerequisiteNotSatisfied
    | SpecInvalid | SourceUnavailable | PulumiVersionTooLow | WorkspaceFailed | UpdateFailed | NamespaceTerminating

  datatype Condition = Condition(typ: ConditionType, status: bool, reason: Reason)

  type Conditions = seq<Condition>

  // The first entry of the given type.
  function Find(cs: Conditions, t: ConditionType): Option<Condition> {
    if cs == [] then None
    else if cs[0].typ == t then Some(cs[0])
    else Find(cs[1..], t)
  }

  predicate IsTrue(cs: Conditions, t: ConditionType) {
    Find(cs, t).Some? && Find(cs, t).value.status
  }

  function Remove(cs: Conditions, t: ConditionType): Conditions {
    if cs == [] then []
    else if cs[0].typ == t then Remove(cs[1..], t)
    else [cs[0]] + Remove(cs[1..], t)
  }

  // Overwrites the first entry of the same type where it stands, or appends.
  function Set(cs: Conditions, c: Condition): Conditions {
    if cs == [] then [c]
    else if cs[0].typ == c.typ then [c] + cs[1..]
    else [cs[0]] + Set(cs[1..], c)
  }

  function MarkReconciling(cs: Conditions, reason: Reason): Conditions {
    Set(Set(Remove(cs, StalledCondition),
            Condition(ReadyCondition, false, NotReadyInProgress)),
        Condition(ReconcilingCondition, true, reason))
  }

  function MarkStalled(cs: Conditions, reason: Reason): Conditions {
    Set(Set(Remove(cs, ReconcilingCondition),
            Condition(ReadyCondition, false, NotReadyStalled)),
        Condition(StalledCondition, true, reason))
  }

  function MarkReady(cs: Conditions): Conditions {
    Set(Remove(Remove(cs, ReconcilingCondition), StalledCondition),
        Condition(ReadyCondition, true, ProcessingCompleted))
  }

  /** The object whose list the three mutators rewrite in place. */
  class StackStatusConditions {
    var conditions: Conditions

    method MarkReconcilingCondition(reason: Reason)
      modifies this
      ensures conditions == MarkReconciling(old(conditions), reason)
    {
      conditions := Remove(conditions, StalledCondition);
      conditions := Set(conditions, Condition(ReadyCondition, false, NotReadyInProgress));
      conditions := Set(conditions, Condition(ReconcilingCondition, true, reason));
    }

    method MarkStalledCondition(reason: Reason)
      modifies this
      ensures conditions == MarkStalled(old(conditions), reason)
    {
      conditions := Remove(conditions, ReconcilingCondition);
      conditions := Set(conditions, Condition(ReadyCondition, false, NotReadyStalled));
      conditions := Set(conditions, Condition(StalledCondition, true, reason));
    }

    method MarkReadyCondition()
      modifies this
      ensures conditions == MarkReady(old(conditions))
    {
      conditions := Remove(conditions, ReconcilingCondition);
      conditions := Remove(conditions, StalledCondition);
      conditions := Set(conditions, Condition(ReadyCondition, true, ProcessingCompleted));
    }
  }

  /*** What the protocol promises ***/

  // Condition types are pairwise different, as the API's list-map key demands.
  ghost predicate Distinct(cs: Conditions) {
    forall i, j :: 0 <= i < j < |cs| ==> cs[i].typ != cs[j].typ
  }

  // Ready=True alone; Ready=False with Reconciling; Ready=False with Stalled.
  datatype Shape = ShapeReady | ShapeReconciling(reason: Reason) | ShapeStalled(reason: Reason)

  // What a reader that looks conditions up by type sees.
  ghost predicate HasShape(cs: Conditions, s: Shape) {
    && Find(cs, ReadyCondition) == Some(match s
                                        case ShapeReady => Condition(ReadyCondition, true, ProcessingCompleted)
                                        case ShapeReconciling(_) => Condition(ReadyCondition, false, NotReadyInProgress)
                                        case ShapeStalled(_) => Condition(ReadyCondition, false, NotReadyStalled))
    && Find(cs, ReconcilingCondition) ==
       (if s.ShapeReconciling? then Some(Condition(ReconcilingCondition, true, s.reason)) else None)
    && Find(cs, StalledCondition) ==
       (if s.ShapeStalled? then Some(Condition(StalledCondition, true, s.reason)) else None)
  }

  function ShapeOf(cs: Conditions): Shape {
    if IsTrue(cs, ReadyCondition) then ShapeReady
    else if Find(cs, StalledCondition).Some? then ShapeStalled(Find(cs, StalledCondition).value.reason)
    else if Find(cs, ReconcilingCondition).Some? then ShapeReconciling(Find(cs, ReconcilingCondition).value.reason)
    else ShapeReady
  }

  // A stored condition list is well formed: distinct types and one of the three shapes.
  ghost predicate WellFormed(cs: Conditions) {
    Distinct(cs) && HasShape(cs, ShapeOf(cs))
  }

  lemma {:induction false} FindIsMember(cs: Conditions, t: ConditionType)
    ensures Find(cs, t).Some? <==> exists i :: 0 <= i < |cs| && cs[i].typ == t
    ensures Find(cs, t).Some? ==> Find(cs, t).value in cs && Find(cs, t).value.typ == t
  {
    if cs != [] {
      FindIsMember(cs[1..], t);
      if Find(cs, t).Some? {
        if cs[0].typ != t {
          var i :| 0 <= i < |cs[1..]| && cs[1..][i].typ == t;
          assert cs[i + 1].typ == t;
        }
      } else {
        forall i | 0 <= i < |cs| ensures cs[i].typ != t {
          if i > 0 { assert cs[i] == cs[1..][i - 1]; }
        }
      }
    }
  }

  lemma {:induction false} FindAfterSet(cs: Conditions, c: Condition, t: ConditionType)
    ensures Find(Set(cs, c), t) == if t == c.typ then Some(c) else Find(cs, t)
  {
    if cs != [] {
      if cs[0].typ == c.typ {
        assert Set(cs, c)[1..] == cs[1..];
      } else {
        FindAfterSet(cs[1..], c, t);
        assert Set(cs, c)[1..] == Set(cs[1..], c);
      }
    }
  }

  lemma {:induction false} FindAfterRemove(cs: Conditions, r: ConditionType, t: ConditionType)
    ensures Find(Remove(cs, r), t) == if t == r then None else Find(cs, t)
  {
    if cs != [] {
      FindAfterRemove(cs[1..], r, t);
      if cs[0].typ != r { assert Remove(cs, r)[1..] == Remove(cs[1..], r); }
    }
  }

  lemma {:induction false} RemoveKeepsDistinct(cs: Conditions, r: ConditionType)
    requires Distinct(cs)
    ensures Distinct(Remove(cs, r))
    ensures forall c :: c in Remove(cs, r) ==> c in cs
  {
    if cs != [] {
      RemoveKeepsDistinct(cs[1..], r);
      var rest := Remove(cs[1..], r);
      forall j | 0 <= j < |rest| ensures rest[j].typ != cs[0].typ {
        assert rest[j] in rest;
        var k :| 1 <= k < |cs| && cs[k] == rest[j];
      }
    }
  }

  lemma {:induction false} SetKeepsDistinct(cs: Conditions, c: Condition)
    requires Distinct(cs)
    ensures Distinct(Set(cs, c))
    ensures forall d :: d in Set(cs, c) ==> d == c || d in cs
  {
    if cs != [] && cs[0].typ != c.typ {
      SetKeepsDistinct(cs[1..], c);
      var rest := Set(cs[1..], c);
      forall j | 0 <= j < |rest| ensures rest[j].typ != cs[0].typ {
        assert rest[j] in rest;
        if rest[j] != c {
          var k :| 1 <= k < |cs| && cs[k] == rest[j];
        }
      }
    }
  }

  ghost predicate Foreign(t: ConditionType) { t.OtherCondition? }

  /**
   Each mutator puts the list into exactly the shape it names, whatever the list held before,
   keeps the types distinct, and does not touch conditions of other types.
   */
  lemma MarkReconcilingShape(cs: Conditions, reason: Reason)
    ensures HasShape(MarkReconciling(cs, reason), ShapeReconciling(reason))
    ensures Distinct(cs) ==> WellFormed(MarkReconciling(cs, reason))
    ensures forall t :: Foreign(t) ==> Find(MarkReconciling(cs, reason), t) == Find(cs, t)
  {
    var ready := Condition(ReadyCondition, false, NotReadyInProgress);
    var removed := Remove(cs, StalledCondition);
    forall t ensures Find(MarkReconciling(cs, reason), t)
                     == if t == ReconcilingCondition then Some(Condition(t, true, reason))
                        else if t == ReadyCondition then Some(ready)
                        else if t == StalledCondition then None else Find(cs, t) {
      FindAfterRemove(cs, StalledCondition, t);
      FindAfterSet(removed, ready, t);
      FindAfterSet(Set(removed, ready), Condition(ReconcilingCondition, true, reason), t);
    }
    if Distinct(cs) {
      RemoveKeepsDistinct(cs, StalledCondition);
      SetKeepsDistinct(removed, ready);
      SetKeepsDistinct(Set(removed, ready), Condition(ReconcilingCondition, true, reason));
    }
  }

  lemma MarkStalledShape(cs: Conditions, reason: Reason)
    ensures HasShape(MarkStalled(cs, reason), ShapeStalled(reason))
    ensures Distinct(cs) ==> WellFormed(MarkStalled(cs, reason))
    ensures forall t :: Foreign(t) ==> Find(MarkStalled(cs, reason), t) == Find(cs, t)
  {
    var ready := Condition(ReadyCondition, false, NotReadyStalled);
    var removed := Remove(cs, ReconcilingCondition);
    forall t ensures Find(MarkStalled(cs, reason), t)
                     == if t == StalledCondition then Some(Condition(t, true, reason))
                        else if t == ReadyCondition then Some(ready)
                        else if t == ReconcilingCondition then None else Find(cs, t) {
      FindAfterRemove(cs, ReconcilingCondition, t);
      FindAfterSet(removed, ready, t);
      FindAfterSet(Set(removed, ready), Condition(StalledCondition, true, reason), t);
    }
    if Distinct(cs) {
      RemoveKeepsDistinct(cs, ReconcilingCondition);
      SetKeepsDistinct(removed, ready);
      SetKeepsDistinct(Set(removed, ready), Condition(StalledCondition, true, reason));
    }
  }

  lemma MarkReadyShape(cs: Conditions)
    ensures HasShape(MarkReady(cs), ShapeReady)
    ensures Distinct(cs) ==> WellFormed(MarkReady(cs))
    ensures forall t :: Foreign(t) ==> Find(MarkReady(cs), t) == Find(cs, t)
  {
    var ready := Condition(ReadyCondition, true, ProcessingCompleted);
    var once := Remove(cs, ReconcilingCondition);
    var twice := Remove(once, StalledCondition);
    forall t ensures Find(MarkReady(cs), t)
                     == if t == ReadyCondition then Some(ready)
                        else if t == StalledCondition || t == ReconcilingCondition then None else Find(cs, t) {
      FindAfterRemove(cs, ReconcilingCondition, t);
      FindAfterRemove(once, StalledCondition, t);
      FindAfterSet(twice, ready, t);
    }
    if Distinct(cs) {
      RemoveKeepsDistinct(cs, ReconcilingCondition);
      RemoveKeepsDistinct(once, StalledCondition);
      SetKeepsDistinct(twice, ready);
    }
  }

  /** The three shapes exclude one another, so a well-formed list has exactly one. */
  lemma ShapeIsUnique(cs: Conditions, s: Shape, s': Shape)
    requires HasShape(cs, s) && HasShape(cs, s')
    ensures s == s' == ShapeOf(cs)
    ensures IsTrue(cs, ReadyCondition) <==> s == ShapeReady
  {}
}
