/**
 Ownership of history (backend/src/extrio/collector_history.py, and its callers in
 backend/src/extrio/collector_lifecycle.py): which requirement a run, an AI run or an operation
 belonged to.  A record is written once, with an insert that yields to an existing one, and moving
 a source to another requirement first freezes the records of everything it did before.
 */
module OwnershipHistory {
  import opened Prelude
  import opened CommandReceipts

  type Id(==,!new)

  datatype Kind = RunKind | AiRunKind | OperationKind

  datatype Ref = Ref(kind: Kind, id: Id)

  datatype Owner = Owner(collection: Id, name: string, version: Id)

  // `rule` is the rule version of a run, or the one an AI run published.
  datatype Resource = Resource(collector: Id, rule: Option<Id>, operation: Option<Id>)

  datatype Rule = Rule(collector: Id, collection: Option<Id>, version: Option<Id>)

  datatype Source = Source(collection: Id, version: Option<Id>, reassigned: bool, archived: bool, deleted: bool)

  datatype Collection = Collection(name: string, archived: bool)

  datatype Record = Record(collector: Id, owner: Owner)

  // `log` lists the resources by creation.
  datatype Store = Store(collections: map<Id, Collection>, sources: map<Id, Source>, rules: map<Id, Rule>,
                         resources: map<Ref, Resource>, log: seq<Ref>, ownership: map<Ref, Record>)

  datatype Event =
    | Create(ref: Ref, resource: Resource)
    | Update(ref: Ref, rule: Option<Id>, operation: Option<Id>)
    | Reassign(collector: Id, target: Id, version: Option<Id>, blocked: bool)
    | Delete(collector: Id, blocked: bool)
    | Other(collections: map<Id, Collection>, sources: map<Id, Source>, rules: map<Id, Rule>)

  // ---------------------------------------------------------------- attribution

  function Attribution(collections: map<Id, Collection>, collection: Option<Id>, version: Option<Id>): Option<Owner> {
    if collection.Some? && collection.value in collections && version.Some?
    then Some(Owner(collection.value, collections[collection.value].name, version.value)) else None
  }

  function RuleAttribution(s: Store, rule: Option<Id>): Option<Owner> {
    if rule.Some? && rule.value in s.rules then Attribution(s.collections, s.rules[rule.value].collection, s.rules[rule.value].version) else None
  }

  function SourceAttribution(s: Store, collector: Id): Option<Owner>
    requires collector in s.sources
  {
    Attribution(s.collections, Some(s.sources[collector].collection), s.sources[collector].version)
  }

  // `save_attribution`: an insert that never replaces a record.
  function SaveOwner(ownership: map<Ref, Record>, ref: Ref, collector: Id, owner: Option<Owner>): map<Ref, Record> {
    if owner.Some? && ref !in ownership then ownership[ref := Record(collector, owner.value)] else ownership
  }

  // ---------------------------------------------------------------- resolving old records

  predicate Mine(s: Store, collector: Id, ref: Ref) {
    ref in s.resources && s.resources[ref].collector == collector
  }

  function SavedOwner(s: Store, collector: Id, ref: Ref): Option<Owner> {
    if ref in s.ownership && s.ownership[ref].collector == collector then Some(s.ownership[ref].owner) else None
  }

  // Only the rules of the collector itself are consulted.
  function OwnRule(s: Store, collector: Id, rule: Option<Id>): Option<Owner> {
    if rule.Some? && rule.value in s.rules && s.rules[rule.value].collector == collector then RuleAttribution(s, rule) else None
  }

  function WorkOwner(s: Store, collector: Id, ref: Ref): Option<Owner>
    requires collector in s.sources && Mine(s, collector, ref)
  {
    var saved, byRule := SavedOwner(s, collector, ref), OwnRule(s, collector, s.resources[ref].rule);
    if saved.Some? then saved
    else if byRule.Some? then byRule
    else if ref.kind == AiRunKind && !s.sources[collector].reassigned then SourceAttribution(s, collector)
    else None
  }

  predicate Work(ref: Ref, kind: Kind) {
    ref.kind == kind && kind != OperationKind
  }

  // The owner an operation inherits: the last run, or AI run after the runs, that names it.
  function Inherited(s: Store, collector: Id, log: seq<Ref>, kind: Kind, operation: Id): Option<Owner>
    requires collector in s.sources
  {
    if log == [] then None
    else
      var ref, before := log[|log| - 1], Inherited(s, collector, log[..|log| - 1], kind, operation);
      if Work(ref, kind) && Mine(s, collector, ref) && s.resources[ref].operation == Some(operation) && WorkOwner(s, collector, ref).Some?
      then WorkOwner(s, collector, ref) else before
  }

  function OperationOwner(s: Store, collector: Id, ref: Ref): Option<Owner>
    requires collector in s.sources
  {
    var saved := SavedOwner(s, collector, ref);
    var byAi, byRun := Inherited(s, collector, s.log, AiRunKind, ref.id), Inherited(s, collector, s.log, RunKind, ref.id);
    if saved.Some? then saved
    else if byAi.Some? then byAi
    else if byRun.Some? then byRun
    else if !s.sources[collector].reassigned then SourceAttribution(s, collector)
    else None
  }

  function Resolve(s: Store, collector: Id, ref: Ref): Option<Owner>
    requires collector in s.sources && Mine(s, collector, ref)
  {
    if ref.kind == OperationKind then OperationOwner(s, collector, ref) else WorkOwner(s, collector, ref)
  }

  // A reassignment needs an owner for every record and every rule of the source.
  predicate Resolved(s: Store, collector: Id)
    requires collector in s.sources
  {
    && (forall ref :: ref in s.resources && s.resources[ref].collector == collector ==> Resolve(s, collector, ref).Some?)
    && (forall r :: r in s.rules && s.rules[r].collector == collector ==> RuleAttribution(s, Some(r)).Some?)
  }

  function Frozen(s: Store, collector: Id): map<Ref, Record>
    requires collector in s.sources
  {
    map ref | ref in s.ownership.Keys + (set r | r in s.resources && s.resources[r].collector == collector && Resolve(s, collector, r).Some?) ::
      if ref in s.ownership then s.ownership[ref] else Record(collector, Resolve(s, collector, ref).value)
  }

  // ---------------------------------------------------------------- the commands

  predicate Movable(s: Store, e: Event)
    requires e.Reassign?
  {
    && !e.blocked && e.collector in s.sources && e.target in s.collections
    && !s.sources[e.collector].deleted && !s.sources[e.collector].archived && !s.collections[e.target].archived
    && s.sources[e.collector].collection != e.target && Resolved(s, e.collector)
  }

  // What may happen elsewhere: requirements are edited but stay, sources migrate, rules are published.
  predicate OtherOk(s: Store, e: Event)
    requires e.Other?
  {
    && s.collections.Keys <= e.collections.Keys && s.sources.Keys <= e.sources.Keys
    && (forall r :: r in s.rules ==> r in e.rules && e.rules[r] == s.rules[r])
    && (forall c :: c in s.sources ==> (s.sources[c].reassigned ==> e.sources[c].reassigned) && (s.sources[c].deleted ==> e.sources[c].deleted))
  }

  function CreateOwner(s: Store, e: Event): Option<Owner>
    requires e.Create? && e.resource.collector in s.sources
  {
    var byRule := if e.ref.kind == RunKind then RuleAttribution(s, e.resource.rule) else None;
    if byRule.Some? then byRule else SourceAttribution(s, e.resource.collector)
  }

  function Step(s: Store, e: Event): Store {
    match e
    case Create(ref, resource) =>
      if ref in s.resources || resource.collector !in s.sources || s.sources[resource.collector].deleted then s
      else
        s.(ownership := SaveOwner(s.ownership, ref, resource.collector, CreateOwner(s, e)),
           resources := s.resources[ref := resource], log := s.log + [ref])
    case Update(ref, rule, operation) =>
      if ref !in s.resources then s else s.(resources := s.resources[ref := s.resources[ref].(rule := rule, operation := operation)])
    case Reassign(collector, target, version, _) =>
      if !Movable(s, e) then s
      else
        s.(ownership := Frozen(s, collector),
           sources := s.sources[collector := s.sources[collector].(collection := target, version := version, reassigned := true)])
    case Delete(collector, blocked) =>
      if blocked || collector !in s.sources || s.sources[collector].deleted then s
      else
        s.(ownership := Frozen(s, collector), sources := s.sources[collector := s.sources[collector].(archived := true, deleted := true)])
    case Other(collections, sources, rules) => if OtherOk(s, e) then s.(collections := collections, sources := sources, rules := rules) else s
  }

  function Exec(s: Store, es: seq<Event>): Store {
    if es == [] then s else Step(Exec(s, es[..|es| - 1]), es[|es| - 1])
  }

  // ---------------------------------------------------------------- written once

  predicate Extends(a: map<Ref, Record>, b: map<Ref, Record>) {
    forall ref :: ref in a ==> ref in b && b[ref] == a[ref]
  }

  lemma StepExtends(s: Store, e: Event)
    ensures Extends(s.ownership, Step(s, e).ownership)
  {
    hide Resolve, Resolved;
  }

  // No creation, edit, reassignment or deletion ever changes an ownership record.
  lemma {:induction false} WrittenOnce(s: Store, es: seq<Event>)
    ensures Extends(s.ownership, Exec(s, es).ownership)
  {
    hide Step;
    if es != [] {
      WrittenOnce(s, es[..|es| - 1]);
      StepExtends(Exec(s, es[..|es| - 1]), es[|es| - 1]);
    }
  }

  // The same over idempotent commands: whatever retries, conflicts and refusals occur, commands whose
  // effects are such steps keep every record.
  ghost predicate IsStep<B, R>(c: Command<Store, B, R>) {
    forall s :: c.effect(s).Commit? ==> exists e :: c.effect(s).domain == Step(s, e)
  }

  lemma CommandsKeepRecords<B, R>(l: Ledger<Store, B, R>, cs: seq<Command<Store, B, R>>, ref: Ref)
    requires ref in l.domain.ownership && forall c :: c in cs ==> IsStep(c)
    ensures var t := ExecuteAll(l, cs).domain; ref in t.ownership && t.ownership[ref] == l.domain.ownership[ref]
  {
    hide Step;
    var record := l.domain.ownership[ref];
    var inv := (s: Store) => ref in s.ownership && s.ownership[ref] == record;
    forall c | c in cs ensures Keeps(c, inv) {
      forall s | inv(s) && c.effect(s).Commit? ensures inv(c.effect(s).domain) {
        var e :| c.effect(s).domain == Step(s, e);
        StepExtends(s, e);
      }
    }
    EffectsCarryInvariant(l, cs, inv);
  }

  // ---------------------------------------------------------------- complete after a move

  predicate Recorded(s: Store, collector: Id) {
    forall ref :: ref in s.resources && s.resources[ref].collector == collector ==> ref in s.ownership
  }

  // After a successful reassignment every run, AI run and operation of the source has its one
  // record, which names what the store could prove before the move; later commands of any kind keep
  // exactly that record, although the source now belongs elsewhere.
  lemma ReassignmentFreezes(s: Store, e: Event, es: seq<Event>, ref: Ref)
    requires e.Reassign? && Movable(s, e) && ref in s.resources && s.resources[ref].collector == e.collector
    ensures var t := Exec(Step(s, e), es);
            && ref in t.ownership
            && t.ownership[ref] == (if ref in s.ownership then s.ownership[ref] else Record(e.collector, Resolve(s, e.collector, ref).value))
  {
    hide Resolve, Exec;
    assert Resolve(s, e.collector, ref).Some?;
    WrittenOnce(Step(s, e), es);
  }

  // So nothing the source did before the move is left without a record, then or later.
  lemma ReassignmentRecordsAll(s: Store, e: Event)
    requires e.Reassign? && Movable(s, e)
    ensures Recorded(Step(s, e), e.collector)
  {
    hide Resolve;
    forall ref | ref in s.resources && s.resources[ref].collector == e.collector ensures ref in Step(s, e).ownership {
      assert Resolve(s, e.collector, ref).Some?;
    }
  }

  // A move never attributes old work to the new requirement: of a source that never moved before,
  // everything without a recorded owner or a rule of its own stays with the requirement it leaves.
  lemma OldWorkStays(s: Store, e: Event, ref: Ref)
    requires e.Reassign? && Movable(s, e) && ref in s.resources && s.resources[ref].collector == e.collector
    requires ref !in s.ownership && !s.sources[e.collector].reassigned
    requires (ref.kind == AiRunKind && OwnRule(s, e.collector, s.resources[ref].rule).None?)
             || (ref.kind == OperationKind && Inherited(s, e.collector, s.log, AiRunKind, ref.id).None? && Inherited(s, e.collector, s.log, RunKind, ref.id).None?)
    ensures ref in Step(s, e).ownership && Step(s, e).ownership[ref].owner.collection == s.sources[e.collector].collection
  {
    hide Inherited;
    assert Resolve(s, e.collector, ref).Some?;
  }

  // New work is attributed when it is created, to its rule's requirement or else to the source's
  // current one, so nothing created while versions are known is ever left without a record.
  lemma NewWorkRecorded(s: Store, e: Event, es: seq<Event>)
    requires e.Create? && e.ref !in s.resources && e.resource.collector in s.sources && !s.sources[e.resource.collector].deleted
    requires e.ref !in s.ownership && CreateOwner(s, e).Some?
    ensures var t := Exec(Step(s, e), es); e.ref in t.ownership && t.ownership[e.ref] == Record(e.resource.collector, CreateOwner(s, e).value)
  {
    hide Exec;
    WrittenOnce(Step(s, e), es);
  }

  // ---------------------------------------------------------------- the snapshot in the source's form

  function Lookup(owners: map<Id, Owner>, id: Id): Option<Owner> {
    if id in owners then Some(owners[id]) else None
  }

  function Or<T>(a: Option<T>, b: Option<T>): Option<T> {
    if a.Some? then a else b
  }

  ghost predicate Logged(s: Store) {
    forall ref :: ref in s.resources <==> ref in s.log
  }

  // The owners found for the listed records, and the records without one.
  ghost predicate Collected(s: Store, collector: Id, refs: seq<Ref>, kind: Kind, owners: map<Ref, Owner>, unresolved: set<Ref>)
    requires collector in s.sources
  {
    && (forall ref :: ref in owners <==> ref in refs && ref.kind == kind && Mine(s, collector, ref) && Resolve(s, collector, ref).Some?)
    && (forall ref :: ref in owners ==> Some(owners[ref]) == Resolve(s, collector, ref))
    && (forall ref :: ref in unresolved <==> ref in refs && ref.kind == kind && Mine(s, collector, ref) && Resolve(s, collector, ref).None?)
  }

  // One pass over the runs or over the AI runs: it resolves each record and remembers its owner for
  // the operation the record names, later records replacing earlier ones.
  method ScanWork(s: Store, collector: Id, kind: Kind, before: map<Id, Owner>)
    returns (owners: map<Ref, Owner>, unresolved: set<Ref>, operations: map<Id, Owner>)
    requires collector in s.sources && kind != OperationKind
    ensures Collected(s, collector, s.log, kind, owners, unresolved)
    ensures forall o :: Lookup(operations, o) == Or(Inherited(s, collector, s.log, kind, o), Lookup(before, o))
  {
    hide Resolve, Inherited;
    InheritedStart(s, collector, kind);
    owners, unresolved, operations := map[], {}, before;
    for i := 0 to |s.log|
      invariant Collected(s, collector, s.log[..i], kind, owners, unresolved)
      invariant forall o :: Lookup(operations, o) == Or(Inherited(s, collector, s.log[..i], kind, o), Lookup(before, o))
    {
      var ref := s.log[i];
      InheritedNext(s, collector, kind, i);
      assert forall r :: r in s.log[..i + 1] <==> r in s.log[..i] || r == ref;
      if ref.kind == kind && Mine(s, collector, ref) {
        var owner := Resolve(s, collector, ref);
        if owner.None? {
          unresolved := unresolved + {ref};
        } else {
          owners := owners[ref := owner.value];
          if s.resources[ref].operation.Some? { operations := operations[s.resources[ref].operation.value := owner.value]; }
        }
      }
    }
    assert s.log[..|s.log|] == s.log;
  }

  lemma InheritedStart(s: Store, collector: Id, kind: Kind)
    requires collector in s.sources
    ensures forall o :: Inherited(s, collector, [], kind, o) == None
  {
  }

  lemma InheritedNext(s: Store, collector: Id, kind: Kind, i: nat)
    requires collector in s.sources && i < |s.log| && kind != OperationKind
    ensures var ref := s.log[i];
            forall o :: Inherited(s, collector, s.log[..i + 1], kind, o) ==
                        if ref.kind == kind && Mine(s, collector, ref) && s.resources[ref].operation == Some(o) && Resolve(s, collector, ref).Some?
                        then Resolve(s, collector, ref) else Inherited(s, collector, s.log[..i], kind, o)
  {
    hide WorkOwner;
    assert s.log[..i + 1][..i] == s.log[..i];
  }

  method ScanOperations(s: Store, collector: Id, operations: map<Id, Owner>) returns (owners: map<Ref, Owner>, unresolved: set<Ref>)
    requires collector in s.sources
    requires forall o :: Lookup(operations, o) == Or(Inherited(s, collector, s.log, AiRunKind, o), Inherited(s, collector, s.log, RunKind, o))
    ensures Collected(s, collector, s.log, OperationKind, owners, unresolved)
  {
    hide Inherited, Resolve;
    owners, unresolved := map[], {};
    for i := 0 to |s.log|
      invariant Collected(s, collector, s.log[..i], OperationKind, owners, unresolved)
    {
      var ref := s.log[i];
      assert forall r :: r in s.log[..i + 1] <==> r in s.log[..i] || r == ref;
      if ref.kind == OperationKind && Mine(s, collector, ref) {
        var owner := Or(SavedOwner(s, collector, ref), Lookup(operations, ref.id));
        if owner.None? && !s.sources[collector].reassigned { owner := SourceAttribution(s, collector); }
        OperationResolved(s, collector, operations, ref);
        if owner.None? { unresolved := unresolved + {ref}; } else { owners := owners[ref := owner.value]; }
      }
    }
    assert s.log[..|s.log|] == s.log;
  }

  lemma OperationResolved(s: Store, collector: Id, operations: map<Id, Owner>, ref: Ref)
    requires collector in s.sources && ref.kind == OperationKind && Mine(s, collector, ref)
    requires Lookup(operations, ref.id) == Or(Inherited(s, collector, s.log, AiRunKind, ref.id), Inherited(s, collector, s.log, RunKind, ref.id))
    ensures var named := Or(SavedOwner(s, collector, ref), Lookup(operations, ref.id));
            Resolve(s, collector, ref) == if named.None? && !s.sources[collector].reassigned then SourceAttribution(s, collector) else named
  {
    hide Inherited;
  }

  // `history_snapshot`: everything the source did, resolved, and what remains without an owner.
  method HistorySnapshot(s: Store, collector: Id) returns (owners: map<Ref, Owner>, unresolved: set<Ref>)
    requires collector in s.sources && Logged(s)
    ensures forall ref :: ref in owners <==> Mine(s, collector, ref) && Resolve(s, collector, ref).Some?
    ensures forall ref :: ref in owners ==> Some(owners[ref]) == Resolve(s, collector, ref)
    ensures unresolved == {} <==> forall ref :: ref in s.resources && s.resources[ref].collector == collector ==> Resolve(s, collector, ref).Some?
  {
    hide Resolve, Inherited;
    var runs, openRuns, operations := ScanWork(s, collector, RunKind, map[]);
    var aiRuns, openAiRuns, all := ScanWork(s, collector, AiRunKind, operations);
    forall o ensures Lookup(all, o) == Or(Inherited(s, collector, s.log, AiRunKind, o), Inherited(s, collector, s.log, RunKind, o)) {
      assert Lookup(operations, o) == Or(Inherited(s, collector, s.log, RunKind, o), Lookup(map[], o));
    }
    var ops, openOps := ScanOperations(s, collector, all);
    owners, unresolved := runs + aiRuns + ops, openRuns + openAiRuns + openOps;
    forall ref | Mine(s, collector, ref) ensures ref.kind in {RunKind, AiRunKind, OperationKind} && ref in s.log {}
    assert unresolved == {} <==> forall ref :: ref in s.resources && s.resources[ref].collector == collector ==> Resolve(s, collector, ref).Some? by {
      assert forall ref :: ref in unresolved <==> Mine(s, collector, ref) && Resolve(s, collector, ref).None?;
    }
  }

  // `freeze_history`: every resolved owner is saved unless a record exists.
  method FreezeHistory(s: Store, collector: Id) returns (ownership: map<Ref, Record>)
    requires collector in s.sources && Logged(s)
    ensures ownership == Frozen(s, collector)
  {
    hide Resolve, Frozen;
    var owners, _ := HistorySnapshot(s, collector);
    ownership := s.ownership;
    var left := owners.Keys;
    while left != {}
      invariant left <= owners.Keys
      invariant forall ref :: ref in ownership <==> ref in s.ownership || (ref in owners && ref !in left)
      invariant forall ref :: ref in ownership ==> ownership[ref] == if ref in s.ownership then s.ownership[ref] else Record(collector, owners[ref])
      decreases |left|
    {
      var ref :| ref in left;
      left := left - {ref};
      ownership := SaveOwner(ownership, ref, collector, Some(owners[ref]));
    }
    FrozenIs(s, collector, owners, ownership);
  }

  lemma FrozenIs(s: Store, collector: Id, owners: map<Ref, Owner>, ownership: map<Ref, Record>)
    requires collector in s.sources
    requires forall ref :: ref in owners <==> Mine(s, collector, ref) && Resolve(s, collector, ref).Some?
    requires forall ref :: ref in owners ==> Some(owners[ref]) == Resolve(s, collector, ref)
    requires forall ref :: ref in ownership <==> ref in s.ownership || ref in owners
    requires forall ref :: ref in ownership ==> ownership[ref] == if ref in s.ownership then s.ownership[ref] else Record(collector, owners[ref])
    ensures ownership == Frozen(s, collector)
  {
    hide Resolve;
  }
}
