/**
 Idempotent commands (backend/src/extrio/collection_workflows.py, `receipt` and `finish_command`).

 A command names a (scope, key), carries a request body and an effect on the domain state.
 Inside one transaction the store first looks for a receipt, then runs the effect, then appends
 one audit event and one receipt.  The digest comparison of request bodies is modelled as
 equality of the bodies; an effect that raises rolls the whole transaction back.
 */
module CommandReceipts {
  datatype Key = Key(scope: string, key: string)

  datatype Receipt<B, R> = Receipt(body: B, status: int, response: R)

  datatype Audit<R> = Audit(key: Key, action: string, after: R)

  datatype Effect<S, R> =
    | Commit(domain: S, status: int, response: R, action: string)
    | Abort(error: string)

  datatype Reply<R> =
    | Done(status: int, response: R, replayed: bool)
    | Conflict
    | Refused(error: string)

  datatype Ledger<S, B, R> = Ledger(domain: S, receipts: map<Key, Receipt<B, R>>, audit: seq<Audit<R>>)

  datatype Command<!S, B, !R> = Command(key: Key, body: B, effect: S -> Effect<S, R>)

  function Execute<S, B(==), R>(l: Ledger<S, B, R>, c: Command<S, B, R>): (Ledger<S, B, R>, Reply<R>) {
    if c.key in l.receipts then
      var found := l.receipts[c.key];
      if found.body != c.body then (l, Conflict) else (l, Done(found.status, found.response, true))
    else
      match c.effect(l.domain)
      case Abort(error) => (l, Refused(error))
      case Commit(domain, status, response, action) =>
        (Ledger(domain,
                l.receipts[c.key := Receipt(c.body, status, response)],
                l.audit + [Audit(c.key, action, response)]),
         Done(status, response, false))
  }

  function ExecuteAll<S, B(==), R>(l: Ledger<S, B, R>, cs: seq<Command<S, B, R>>): Ledger<S, B, R> {
    if cs == [] then l else Execute(ExecuteAll(l, cs[..|cs| - 1]), cs[|cs| - 1]).0
  }

  function Fresh<S, B, R>(domain: S): Ledger<S, B, R> {
    Ledger(domain, map[], [])
  }

  function AuditCount<R>(audit: seq<Audit<R>>, key: Key): nat {
    if audit == [] then 0
    else AuditCount(audit[..|audit| - 1], key) + if audit[|audit| - 1].key == key then 1 else 0
  }

  // The command at position i of the sequence changed the domain itself (it was not a replay).
  predicate CommitsAt<S, B(==), R>(l: Ledger<S, B, R>, cs: seq<Command<S, B, R>>, i: nat)
    requires i < |cs|
  {
    var reply := Execute(ExecuteAll(l, cs[..i]), cs[i]).1;
    reply.Done? && !reply.replayed
  }

  // ---------------------------------------------------------------- one command

  lemma OneCommand<S, B, R>(l: Ledger<S, B, R>, c: Command<S, B, R>)
    ensures var (l', reply) := Execute(l, c);
            && (!(reply.Done? && !reply.replayed) ==> l' == l)
            && (reply.Done? && !reply.replayed ==>
                  && c.key !in l.receipts
                  && c.effect(l.domain) == Commit(l'.domain, reply.status, reply.response, l'.audit[|l.audit|].action)
                  && l'.receipts == l.receipts[c.key := Receipt(c.body, reply.status, reply.response)]
                  && |l'.audit| == |l.audit| + 1 && l'.audit[..|l.audit|] == l.audit
                  && l'.audit[|l.audit|].key == c.key && l'.audit[|l.audit|].after == reply.response)
            && (c.key !in l.receipts && c.effect(l.domain).Abort? ==> reply == Refused(c.effect(l.domain).error))
            && (c.key !in l.receipts && c.effect(l.domain).Commit? ==> reply.Done? && !reply.replayed)
            && (c.key in l.receipts ==> reply == if l.receipts[c.key].body == c.body then Done(l.receipts[c.key].status, l.receipts[c.key].response, true) else Conflict)
  {
  }

  // ---------------------------------------------------------------- whole sequences

  // Receipts are never rewritten or withdrawn, whatever commands follow.
  lemma {:induction false} ReceiptsPersist<S, B, R>(l: Ledger<S, B, R>, cs: seq<Command<S, B, R>>, k: Key)
    requires k in l.receipts
    ensures k in ExecuteAll(l, cs).receipts && ExecuteAll(l, cs).receipts[k] == l.receipts[k]
  {
    if cs != [] {
      ReceiptsPersist(l, cs[..|cs| - 1], k);
      OneCommand(ExecuteAll(l, cs[..|cs| - 1]), cs[|cs| - 1]);
    }
  }

  lemma {:induction false} ExecuteAllSplit<S, B, R>(l: Ledger<S, B, R>, cs: seq<Command<S, B, R>>, ds: seq<Command<S, B, R>>)
    ensures ExecuteAll(l, cs + ds) == ExecuteAll(ExecuteAll(l, cs), ds)
  {
    if ds == [] {
      assert cs + ds == cs;
    } else {
      assert (cs + ds)[..|cs + ds| - 1] == cs + ds[..|ds| - 1];
      ExecuteAllSplit(l, cs, ds[..|ds| - 1]);
    }
  }

  // Over any sequence of commands every (scope, key) has exactly one audit event if it has a
  // receipt and none otherwise.
  lemma {:induction false} OneAuditEventPerKey<S, B, R>(domain: S, cs: seq<Command<S, B, R>>, k: Key)
    ensures var l := ExecuteAll(Fresh<S, B, R>(domain), cs);
            AuditCount(l.audit, k) == if k in l.receipts then 1 else 0
  {
    if cs != [] {
      var before := ExecuteAll(Fresh<S, B, R>(domain), cs[..|cs| - 1]);
      OneAuditEventPerKey(domain, cs[..|cs| - 1], k);
      OneCommand(before, cs[|cs| - 1]);
      var after := ExecuteAll(Fresh<S, B, R>(domain), cs);
      if after != before {
        assert after.audit[..|after.audit| - 1] == before.audit;
      }
    }
  }

  // After the command at position i committed, its receipt answers every later use of the key:
  // the same body gets the stored reply, another body conflicts, and neither changes anything.
  lemma RepeatsReplay<S, B, R>(domain: S, cs: seq<Command<S, B, R>>, i: nat, j: nat)
    requires i < j < |cs| && cs[i].key == cs[j].key
    requires CommitsAt(Fresh<S, B, R>(domain), cs, i)
    ensures var first := Execute(ExecuteAll(Fresh<S, B, R>(domain), cs[..i]), cs[i]).1;
            var before := ExecuteAll(Fresh<S, B, R>(domain), cs[..j]);
            var (after, reply) := Execute(before, cs[j]);
            && after == before
            && reply == if cs[i].body == cs[j].body then Done(first.status, first.response, true) else Conflict
  {
    var start := Fresh<S, B, R>(domain);
    OneCommand(ExecuteAll(start, cs[..i]), cs[i]);
    assert cs[..i + 1][..i] == cs[..i];
    var mid := ExecuteAll(start, cs[..i + 1]);
    assert cs[..j] == cs[..i + 1] + cs[i + 1..j];
    ExecuteAllSplit(start, cs[..i + 1], cs[i + 1..j]);
    ReceiptsPersist(mid, cs[i + 1..j], cs[i].key);
  }

  // Hence at most one command of a sequence commits under one key.
  lemma ExactlyOnce<S, B, R>(domain: S, cs: seq<Command<S, B, R>>, i: nat, j: nat)
    requires i < |cs| && j < |cs| && cs[i].key == cs[j].key
    requires CommitsAt(Fresh<S, B, R>(domain), cs, i) && CommitsAt(Fresh<S, B, R>(domain), cs, j)
    ensures i == j
  {
    if i < j {
      RepeatsReplay(domain, cs, i, j);
    } else if j < i {
      RepeatsReplay(domain, cs, j, i);
    }
  }

  ghost predicate Keeps<S(!new), B, R>(c: Command<S, B, R>, inv: S -> bool) {
    forall s :: inv(s) && c.effect(s).Commit? ==> inv(c.effect(s).domain)
  }

  // A property every effect keeps is kept by the ledger over every sequence of commands,
  // so domain invariants survive retries, conflicts and refusals.
  lemma {:induction false} EffectsCarryInvariant<S(!new), B, R>(l: Ledger<S, B, R>, cs: seq<Command<S, B, R>>, inv: S -> bool)
    requires inv(l.domain)
    requires forall c :: c in cs ==> Keeps(c, inv)
    ensures inv(ExecuteAll(l, cs).domain)
  {
    if cs != [] {
      EffectsCarryInvariant(l, cs[..|cs| - 1], inv);
      assert Keeps(cs[|cs| - 1], inv);
    }
  }

  // ---------------------------------------------------------------- commands among other changes

  // What can happen to a store: a command, or a change that is no command.
  datatype Happening<!S, B, !R> = Issued(command: Command<S, B, R>) | Passed(change: S -> S)

  function Happen<S, B(==), R>(l: Ledger<S, B, R>, h: Happening<S, B, R>): Ledger<S, B, R> {
    match h
    case Issued(command) => Execute(l, command).0
    case Passed(change) => l.(domain := change(l.domain))
  }

  function HappenAll<S, B(==), R>(l: Ledger<S, B, R>, hs: seq<Happening<S, B, R>>): Ledger<S, B, R> {
    if hs == [] then l else Happen(HappenAll(l, hs[..|hs| - 1]), hs[|hs| - 1])
  }

  ghost predicate HappeningKeeps<S(!new), B, R>(h: Happening<S, B, R>, inv: S -> bool) {
    match h
    case Issued(command) => Keeps(command, inv)
    case Passed(change) => forall s :: inv(s) ==> inv(change(s))
  }

  // With any other changes between the commands: an invariant all of them keep holds at the end, and
  // each key is audited once if it has a receipt and never otherwise.
  lemma {:induction false} HistoryKeeps<S(!new), B, R>(domain: S, hs: seq<Happening<S, B, R>>, inv: S -> bool, key: Key)
    requires inv(domain) && forall h :: h in hs ==> HappeningKeeps(h, inv)
    ensures var l := HappenAll(Fresh<S, B, R>(domain), hs);
            inv(l.domain) && AuditCount(l.audit, key) == if key in l.receipts then 1 else 0
  {
    if hs != [] {
      var before, h := HappenAll(Fresh<S, B, R>(domain), hs[..|hs| - 1]), hs[|hs| - 1];
      HistoryKeeps(domain, hs[..|hs| - 1], inv, key);
      assert HappeningKeeps(h, inv);
      if h.Issued? {
        assert Keeps(h.command, inv);
        OneCommand(before, h.command);
        var after := Happen(before, h);
        if after != before { assert after.audit[..|after.audit| - 1] == before.audit; }
      }
    }
  }

  lemma {:induction false} ReceiptOutlives<S, B, R>(l: Ledger<S, B, R>, hs: seq<Happening<S, B, R>>, key: Key)
    requires key in l.receipts
    ensures key in HappenAll(l, hs).receipts && HappenAll(l, hs).receipts[key] == l.receipts[key]
  {
    if hs != [] {
      ReceiptOutlives(l, hs[..|hs| - 1], key);
      if hs[|hs| - 1].Issued? { OneCommand(HappenAll(l, hs[..|hs| - 1]), hs[|hs| - 1].command); }
    }
  }

  // Once a command committed, repeating it replays its reply and changes nothing, whatever commands and
  // other changes came between.
  lemma RepeatsForever<S, B, R>(l: Ledger<S, B, R>, c: Command<S, B, R>, hs: seq<Happening<S, B, R>>)
    requires var reply := Execute(l, c).1; reply.Done? && !reply.replayed
    ensures var first, later := Execute(l, c).1, HappenAll(Execute(l, c).0, hs);
            Execute(later, c) == (later, Done(first.status, first.response, true))
  {
    OneCommand(l, c);
    ReceiptOutlives(Execute(l, c).0, hs, c.key);
  }
}
