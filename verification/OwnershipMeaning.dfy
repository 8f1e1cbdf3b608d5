/**
 Who the owner of a piece of history is, in the order the evidence counts, and what creating, moving and
 deleting write down.
 */
module OwnershipMeaning {
  import opened Prelude
  import opened OwnershipHistory

  // ---------------------------------------------------------------- evidence

  // What a requirement and a version name, while the requirement is stored.
  predicate NamedBy(s: Store, collection: Option<Id>, version: Option<Id>, owner: Owner) {
    && collection == Some(owner.collection) && owner.collection in s.collections && owner.name == s.collections[owner.collection].name
    && version == Some(owner.version)
  }

  predicate SourceNames(s: Store, collector: Id, owner: Owner)
    requires collector in s.sources
  {
    NamedBy(s, Some(s.sources[collector].collection), s.sources[collector].version, owner)
  }

  predicate RuleNames(s: Store, rule: Option<Id>, owner: Owner) {
    rule.Some? && rule.value in s.rules && NamedBy(s, s.rules[rule.value].collection, s.rules[rule.value].version, owner)
  }

  predicate OwnRuleNames(s: Store, collector: Id, rule: Option<Id>, owner: Owner) {
    RuleNames(s, rule, owner) && s.rules[rule.value].collector == collector
  }

  predicate SavedAs(s: Store, collector: Id, ref: Ref, owner: Owner) {
    ref in s.ownership && s.ownership[ref] == Record(collector, owner)
  }

  lemma AttributionMeans(s: Store, collector: Id, ref: Ref, rule: Option<Id>, owner: Owner)
    requires collector in s.sources
    ensures SourceAttribution(s, collector) == Some(owner) <==> SourceNames(s, collector, owner)
    ensures RuleAttribution(s, rule) == Some(owner) <==> RuleNames(s, rule, owner)
    ensures OwnRule(s, collector, rule) == Some(owner) <==> OwnRuleNames(s, collector, rule, owner)
    ensures SavedOwner(s, collector, ref) == Some(owner) <==> SavedAs(s, collector, ref, owner)
  {
  }

  // ---------------------------------------------------------------- runs and AI runs

  // The record counts first, then the rule of the source itself, and, for an AI run of a source that never
  // moved, the source.
  ghost predicate WorkOwned(s: Store, collector: Id, ref: Ref, owner: Owner)
    requires collector in s.sources && ref in s.resources
  {
    var noRecord := forall o :: !SavedAs(s, collector, ref, o);
    var noRule := forall o :: !OwnRuleNames(s, collector, s.resources[ref].rule, o);
    || SavedAs(s, collector, ref, owner)
    || (noRecord && OwnRuleNames(s, collector, s.resources[ref].rule, owner))
    || (noRecord && noRule && ref.kind == AiRunKind && !s.sources[collector].reassigned && SourceNames(s, collector, owner))
  }

  lemma WorkMeans(s: Store, collector: Id, ref: Ref, owner: Owner)
    requires collector in s.sources && Mine(s, collector, ref) && ref.kind != OperationKind
    ensures Resolve(s, collector, ref) == Some(owner) <==> WorkOwned(s, collector, ref, owner)
  {
    var rule := s.resources[ref].rule;
    hide SourceAttribution, RuleAttribution, OwnRule, SavedOwner, SourceNames, OwnRuleNames, SavedAs;
    forall o: Owner
      ensures SavedOwner(s, collector, ref) == Some(o) <==> SavedAs(s, collector, ref, o)
      ensures OwnRule(s, collector, rule) == Some(o) <==> OwnRuleNames(s, collector, rule, o)
      ensures SourceAttribution(s, collector) == Some(o) <==> SourceNames(s, collector, o)
    {
      AttributionMeans(s, collector, ref, rule, o);
    }
    if SavedOwner(s, collector, ref).Some? { assert SavedAs(s, collector, ref, SavedOwner(s, collector, ref).value); }
    if OwnRule(s, collector, rule).Some? { assert OwnRuleNames(s, collector, rule, OwnRule(s, collector, rule).value); }
  }

  // ---------------------------------------------------------------- operations

  // The record is a run or AI run of the source that names the operation and has an owner.
  predicate Bears(s: Store, collector: Id, kind: Kind, operation: Id, ref: Ref)
    requires collector in s.sources
  {
    && ref.kind == kind && kind != OperationKind && ref in s.resources && s.resources[ref].collector == collector
    && s.resources[ref].operation == Some(operation) && Resolve(s, collector, ref).Some?
  }

  lemma {:induction false} InheritedFrom(s: Store, collector: Id, log: seq<Ref>, kind: Kind, operation: Id, i: nat)
    requires collector in s.sources && i < |log| && Bears(s, collector, kind, operation, log[i])
    requires forall j :: i < j < |log| ==> !Bears(s, collector, kind, operation, log[j])
    ensures Inherited(s, collector, log, kind, operation) == Resolve(s, collector, log[i])
  {
    hide WorkOwner;
    if i < |log| - 1 {
      var front := log[..|log| - 1];
      assert forall j :: 0 <= j < |front| ==> front[j] == log[j];
      assert !Bears(s, collector, kind, operation, log[|log| - 1]);
      InheritedFrom(s, collector, front, kind, operation, i);
    }
  }

  lemma {:induction false} NoneInherited(s: Store, collector: Id, log: seq<Ref>, kind: Kind, operation: Id)
    requires collector in s.sources && forall j :: 0 <= j < |log| ==> !Bears(s, collector, kind, operation, log[j])
    ensures Inherited(s, collector, log, kind, operation) == None
  {
    hide WorkOwner;
    if log != [] {
      var front := log[..|log| - 1];
      assert forall j :: 0 <= j < |front| ==> front[j] == log[j];
      assert !Bears(s, collector, kind, operation, log[|log| - 1]);
      NoneInherited(s, collector, front, kind, operation);
    }
  }

  predicate Last(s: Store, collector: Id, kind: Kind, operation: Id, i: nat)
    requires collector in s.sources
  {
    && i < |s.log| && Bears(s, collector, kind, operation, s.log[i])
    && forall j :: i < j < |s.log| ==> !Bears(s, collector, kind, operation, s.log[j])
  }

  predicate NoneBears(s: Store, collector: Id, kind: Kind, operation: Id)
    requires collector in s.sources
  {
    forall j :: 0 <= j < |s.log| ==> !Bears(s, collector, kind, operation, s.log[j])
  }

  // An operation belongs where its record says; otherwise with the last AI run that names it, then with the
  // last run that does, and, for a source that never moved, with the source.
  lemma OperationMeans(s: Store, collector: Id, ref: Ref, i: nat)
    requires collector in s.sources && Mine(s, collector, ref) && ref.kind == OperationKind
    ensures var owner := Resolve(s, collector, ref);
            var saved := ref in s.ownership && s.ownership[ref].collector == collector;
            && (saved ==> owner == Some(s.ownership[ref].owner))
            && (!saved && Last(s, collector, AiRunKind, ref.id, i) ==> owner == Resolve(s, collector, s.log[i]))
            && (!saved && NoneBears(s, collector, AiRunKind, ref.id) && Last(s, collector, RunKind, ref.id, i) ==> owner == Resolve(s, collector, s.log[i]))
            && (!saved && NoneBears(s, collector, AiRunKind, ref.id) && NoneBears(s, collector, RunKind, ref.id) ==>
                  owner == if s.sources[collector].reassigned then None else SourceAttribution(s, collector))
  {
    hide WorkOwner, Inherited, SourceAttribution, Bears;
    if Last(s, collector, AiRunKind, ref.id, i) { InheritedFrom(s, collector, s.log, AiRunKind, ref.id, i); BearerOwned(s, collector, AiRunKind, ref.id, s.log[i]); }
    if Last(s, collector, RunKind, ref.id, i) { InheritedFrom(s, collector, s.log, RunKind, ref.id, i); BearerOwned(s, collector, RunKind, ref.id, s.log[i]); }
    if NoneBears(s, collector, AiRunKind, ref.id) { NoneInherited(s, collector, s.log, AiRunKind, ref.id); }
    if NoneBears(s, collector, RunKind, ref.id) { NoneInherited(s, collector, s.log, RunKind, ref.id); }
  }

  lemma BearerOwned(s: Store, collector: Id, kind: Kind, operation: Id, ref: Ref)
    requires collector in s.sources && Bears(s, collector, kind, operation, ref)
    ensures Mine(s, collector, ref) && Resolve(s, collector, ref).Some?
  {
  }

  // ---------------------------------------------------------------- what is written down

  // New work of a stored source gets at most one record: a run the one its rule names, and otherwise the one
  // its source names; everything else stays.
  lemma CreateMeans(s: Store, ref: Ref, resource: Resource, owner: Owner)
    requires ref !in s.resources && resource.collector in s.sources && !s.sources[resource.collector].deleted
    ensures var t := Step(s, Create(ref, resource));
            && t.resources == s.resources[ref := resource] && t.log == s.log + [ref]
            && t.collections == s.collections && t.sources == s.sources && t.rules == s.rules
            && (ref in s.ownership ==> t.ownership == s.ownership)
            && (ref !in s.ownership && ref.kind == RunKind && RuleNames(s, resource.rule, owner) ==>
                  t.ownership == s.ownership[ref := Record(resource.collector, owner)])
            && (ref !in s.ownership && (ref.kind != RunKind || forall o :: !RuleNames(s, resource.rule, o)) && SourceNames(s, resource.collector, owner) ==>
                  t.ownership == s.ownership[ref := Record(resource.collector, owner)])
            && ((ref.kind != RunKind || forall o :: !RuleNames(s, resource.rule, o)) && (forall o :: !SourceNames(s, resource.collector, o)) ==>
                  t.ownership == s.ownership)
  {
    hide RuleAttribution, SourceAttribution, RuleNames, SourceNames;
    forall o: Owner
      ensures RuleAttribution(s, resource.rule) == Some(o) <==> RuleNames(s, resource.rule, o)
      ensures SourceAttribution(s, resource.collector) == Some(o) <==> SourceNames(s, resource.collector, o)
    {
      AttributionMeans(s, resource.collector, ref, resource.rule, o);
    }
    if RuleAttribution(s, resource.rule).Some? { assert RuleNames(s, resource.rule, RuleAttribution(s, resource.rule).value); }
    if SourceAttribution(s, resource.collector).Some? {
      assert SourceNames(s, resource.collector, SourceAttribution(s, resource.collector).value);
    }
  }

  // A stored source that is neither archived nor deleted moves to another open requirement exactly when no
  // work blocks it, every record it has resolves to an owner and every rule of its own names one.
  predicate MayMove(s: Store, collector: Id, target: Id, blocked: bool) {
    && !blocked && collector in s.sources && target in s.collections
    && !s.sources[collector].deleted && !s.sources[collector].archived && !s.collections[target].archived
    && s.sources[collector].collection != target
    && (forall ref :: ref in s.resources && s.resources[ref].collector == collector ==> Resolve(s, collector, ref).Some?)
    && (forall r :: r in s.rules && s.rules[r].collector == collector ==>
          s.rules[r].collection.Some? && s.rules[r].collection.value in s.collections && s.rules[r].version.Some?)
  }

  predicate RecordsFrozen(s: Store, t: Store, collector: Id)
    requires collector in s.sources
  {
    && (forall ref :: ref in s.ownership ==> ref in t.ownership && t.ownership[ref] == s.ownership[ref])
    && (forall ref :: ref in t.ownership && ref !in s.ownership ==>
          ref in s.resources && s.resources[ref].collector == collector && Some(t.ownership[ref].owner) == Resolve(s, collector, ref)
          && t.ownership[ref].collector == collector)
    && (forall ref :: ref in s.resources && s.resources[ref].collector == collector && Resolve(s, collector, ref).Some? ==> ref in t.ownership)
  }

  // A move freezes the records first and then points the source at its target, for good; a refused one
  // changes nothing.
  lemma MoveMeans(s: Store, collector: Id, target: Id, version: Option<Id>, blocked: bool)
    ensures var t := Step(s, Reassign(collector, target, version, blocked));
            if MayMove(s, collector, target, blocked) then
              && RecordsFrozen(s, t, collector) && t.resources == s.resources && t.log == s.log && t.collections == s.collections && t.rules == s.rules
              && t.sources == s.sources[collector := s.sources[collector].(collection := target, version := version, reassigned := true)]
            else t == s
  {
    hide Resolve;
  }

  // Deleting freezes what resolves, needs no owner for the rest, and keeps the source as archived.
  lemma DeleteMeans(s: Store, collector: Id, blocked: bool)
    ensures var t := Step(s, Delete(collector, blocked));
            if !blocked && collector in s.sources && !s.sources[collector].deleted then
              && RecordsFrozen(s, t, collector) && t.resources == s.resources && t.log == s.log && t.collections == s.collections && t.rules == s.rules
              && t.sources == s.sources[collector := s.sources[collector].(archived := true, deleted := true)]
            else t == s
  {
    hide Resolve;
  }

  // An update may change which rule and operation a piece of work names, but neither its source nor its record.
  lemma UpdateMeans(s: Store, ref: Ref, rule: Option<Id>, operation: Option<Id>)
    requires ref in s.resources
    ensures Step(s, Update(ref, rule, operation)) == s.(resources := s.resources[ref := Resource(s.resources[ref].collector, rule, operation)])
  {
  }

  // Work of an unknown or deleted source is not stored, nor is the same work twice.
  lemma CreateRefused(s: Store, ref: Ref, resource: Resource)
    requires ref in s.resources || resource.collector !in s.sources || s.sources[resource.collector].deleted
    ensures Step(s, Create(ref, resource)) == s
  {
  }

  // Whatever else is edited, published or migrated touches neither work nor records.
  lemma OtherMeans(s: Store, e: Event)
    requires e.Other? && OtherOk(s, e)
    ensures Step(s, e) == Store(e.collections, e.sources, e.rules, s.resources, s.log, s.ownership)
  {
  }
}
