/**
 What the frozen contract, the role bindings and the join of the stages decide, field by field.
 */
module RuleContract {
  import opened Prelude
  import opened Text
  import opened RulePlan

  // ---------------------------------------------------------------- the date column

  // The column the list stage hands over as its date, when the version does not name it and it is extracted.
  predicate DateColumn(p: Plan, v: Version, key: string) {
    && p.listDetail && "listPublishedAt" in p.bindings && p.bindings["listPublishedAt"] == Dotted("list", key)
    && key !in v.fields && key in p.list
  }

  predicate AsListDate(before: Rule, after: Rule) {
    && after.caption == "\U{5217}\U{8868}\U{65e5}\U{671f}" && !after.required && after.valueType == "string" && after.onError == "null"
    && after.selector == before.selector && after.mechanics == before.mechanics && after.format == before.format && after.timezone == before.timezone
  }

  // Such a column is copied under the agreed name, optional and as text, and the role follows it; without
  // one nothing changes.
  lemma HandoverMeans(p: Plan, v: Version)
    ensures var h := Handover(p, v);
            && (forall key :: DateColumn(p, v, key) ==>
                  && "listPublishedAt" in h.list && AsListDate(p.list[key], h.list["listPublishedAt"])
                  && h.list == p.list["listPublishedAt" := h.list["listPublishedAt"]]
                  && h.bindings == p.bindings["listPublishedAt" := Dotted("list", "listPublishedAt")]
                  && h.detail == p.detail && h.listDetail && h.identity == p.identity && h.fingerprint == p.fingerprint)
            && ((forall key :: !DateColumn(p, v, key)) ==> h == p)
  {
    if DateKey(p).Some? { assert DateColumn(p, v, DateKey(p).value) <==> DateKey(p).value !in v.fields && DateKey(p).value in p.list; }
  }

  // ---------------------------------------------------------------- the contract

  // A frozen field is named, typed, required and treated on failure as the version says, with a format and a
  // time zone exactly when it is an instant; how it is extracted stays.
  predicate Conforms(before: Rule, after: Rule, f: Frozen) {
    && after.caption == (if |f.caption| <= 64 then f.caption else f.caption[..64]) && after.required == f.required
    && (f.kind == "date" ==> after.valueType == "string") && (f.kind == "object" || f.kind == "array" ==> after.valueType == "json")
    && (f.kind != "date" && f.kind != "object" && f.kind != "array" ==> after.valueType == f.kind)
    && after.onError == (if f.required then "reject_item" else "null")
    && (f.kind != "datetime" ==> after.format == None && after.timezone == None)
    && (f.kind == "datetime" ==>
          && after.format == (if before.format.Some? then before.format else Some("RFC3339"))
          && after.timezone == (if before.timezone.Some? then before.timezone else Some("UTC")))
    && after.selector == before.selector && after.mechanics == before.mechanics
  }

  lemma ConformMeans(rule: Rule, f: Frozen)
    ensures Conforms(rule, Conform(rule, f), f)
  {
    assert "date" != "object" && "date" != "array" && "datetime" != "date" by { assert "date"[0] != "object"[0] && |"date"| != |"datetime"| && "date"[0] != "array"[0]; }
  }

  // The list stage keeps the frozen fields, the detail link, and the date it hands over; the detail stage
  // keeps the frozen fields only.
  predicate Kept(h: Plan, v: Version, key: string, isList: bool) {
    || key in v.fields
    || (isList && h.listDetail && key == "detailUrl")
    || (isList && h.listDetail && key == "listPublishedAt" && key in h.bindings && h.bindings[key] == Dotted("list", "listPublishedAt"))
  }

  ghost predicate StageIs(before: map<string, Rule>, after: map<string, Rule>, h: Plan, v: Version, isList: bool) {
    && (forall key :: key in after <==> key in before && Kept(h, v, key, isList))
    && (forall key :: key in after && key in v.fields ==> Conforms(before[key], after[key], v.fields[key]))
    && (forall key :: key in after && key !in v.fields ==> after[key] == before[key])
  }

  lemma StageMeans(fields: map<string, Rule>, v: Version, h: Plan, isList: bool)
    ensures StageIs(fields, ConformStage(fields, v, h, isList), h, v, isList)
  {
    hide Conform, Conforms;
    forall key | key in fields && key in v.fields ensures Conforms(fields[key], Conform(fields[key], v.fields[key]), v.fields[key]) {
      ConformMeans(fields[key], v.fields[key]);
    }
  }

  // A role keeps its binding exactly when the bound key is frozen, or names the link or the date of the list.
  predicate BindingKept(b: Binding, v: Version, listDetail: bool) {
    || (b.Dotted? && b.key in v.fields) || (b.Plain? && b.name in v.fields)
    || (listDetail && (b == Dotted("list", "detailUrl") || b == Dotted("list", "listPublishedAt")))
  }

  // The contract fails exactly for the frozen fields that no stage extracts, and names them; otherwise it
  // fixes every stage, every binding and the identity of the items.
  lemma ConstrainMeans(plan: Plan, v: Version)
    ensures var h := Handover(plan, v);
            match Constrain(plan, v)
            case Err(missing) =>
              && missing != {}
              && forall key :: key in missing <==> key in v.fields && key !in h.list && !(h.listDetail && key in h.detail)
            case Ok(q) =>
              && (forall key :: key in v.fields ==> key in h.list || (h.listDetail && key in h.detail))
              && q.listDetail == h.listDetail && StageIs(h.list, q.list, h, v, true)
              && (if h.listDetail then StageIs(h.detail, q.detail, h, v, false) else q.detail == h.detail)
              && (forall role :: role in q.bindings <==> role in h.bindings && BindingKept(h.bindings[role], v, h.listDetail))
              && (forall role :: role in q.bindings ==> q.bindings[role] == h.bindings[role])
              && q.identity == v.identity && q.fingerprint == v.fingerprint
  {
    hide Handover, ConformStage, StageIs;
    var h := Handover(plan, v);
    StageMeans(h.list, v, h, true);
    StageMeans(h.detail, v, h, false);
    if Constrain(plan, v).Ok? {
      forall key | key in v.fields ensures key in h.list || (h.listDetail && key in h.detail) {
        assert key !in v.fields.Keys - Available(h);
      }
    }
  }

  // ---------------------------------------------------------------- bindings

  // The model's answer for a role, with renamed detail fields followed.
  predicate Answers(raw: Option<Binding>, renamed: map<string, string>, list: seq<string>, detail: seq<string>, b: Binding) {
    && raw.Some? && raw.value.Dotted? && b.Dotted?
    && b == (if raw.value.stage == "detail" && raw.value.key in renamed then Dotted("detail", renamed[raw.value.key]) else raw.value)
    && ((b.stage == "list" && b.key in list) || (b.stage == "detail" && b.key in detail))
  }

  predicate Matches(key: string, name: string, fold: string -> string, whole: bool) {
    if whole then fold(key) == fold(name) else Contains(fold(key), fold(name))
  }

  // The first key of the stage that matches the earliest preferred name any key matches.
  predicate BestMatch(keys: seq<string>, preferred: seq<string>, fold: string -> string, whole: bool, i: nat, k: nat) {
    && i < |preferred| && k < |keys| && Matches(keys[k], preferred[i], fold, whole)
    && (forall j :: 0 <= j < k ==> !Matches(keys[j], preferred[i], fold, whole))
    && (forall n, j :: 0 <= n < i && 0 <= j < |keys| ==> !Matches(keys[j], preferred[n], fold, whole))
  }

  predicate NoMatch(keys: seq<string>, preferred: seq<string>, fold: string -> string, whole: bool) {
    forall n, j :: 0 <= n < |preferred| && 0 <= j < |keys| ==> !Matches(keys[j], preferred[n], fold, whole)
  }

  lemma {:induction false} FirstKeyMeans(keys: seq<string>, name: string, fold: string -> string, whole: bool, k: nat)
    requires k < |keys| && Matches(keys[k], name, fold, whole) && forall j :: 0 <= j < k ==> !Matches(keys[j], name, fold, whole)
    ensures FirstKey(keys, name, fold, whole) == Some(keys[k])
  {
    hide Contains;
    if k > 0 {
      assert forall j :: 0 <= j < |keys| - 1 ==> keys[1..][j] == keys[j + 1];
      FirstKeyMeans(keys[1..], name, fold, whole, k - 1);
    }
  }

  lemma {:induction false} FirstKeyNone(keys: seq<string>, name: string, fold: string -> string, whole: bool)
    requires forall j :: 0 <= j < |keys| ==> !Matches(keys[j], name, fold, whole)
    ensures FirstKey(keys, name, fold, whole) == None
  {
    hide Contains;
    if keys != [] {
      assert forall j :: 0 <= j < |keys| - 1 ==> keys[1..][j] == keys[j + 1];
      FirstKeyNone(keys[1..], name, fold, whole);
    }
  }

  lemma {:induction false} FirstMatchMeans(keys: seq<string>, preferred: seq<string>, fold: string -> string, whole: bool, i: nat, k: nat)
    requires BestMatch(keys, preferred, fold, whole, i, k)
    ensures FirstMatch(keys, preferred, fold, whole) == Some(keys[k])
  {
    hide Matches, FirstKey;
    if i == 0 {
      FirstKeyMeans(keys, preferred[0], fold, whole, k);
    } else {
      FirstKeyNone(keys, preferred[0], fold, whole);
      assert forall n :: 0 <= n < |preferred| - 1 ==> preferred[1..][n] == preferred[n + 1];
      FirstMatchMeans(keys, preferred[1..], fold, whole, i - 1, k);
    }
  }

  lemma {:induction false} FirstMatchNone(keys: seq<string>, preferred: seq<string>, fold: string -> string, whole: bool)
    requires NoMatch(keys, preferred, fold, whole)
    ensures FirstMatch(keys, preferred, fold, whole) == None
  {
    hide Matches, FirstKey;
    if preferred != [] {
      FirstKeyNone(keys, preferred[0], fold, whole);
      assert forall n :: 0 <= n < |preferred| - 1 ==> preferred[1..][n] == preferred[n + 1];
      FirstMatchNone(keys, preferred[1..], fold, whole);
    }
  }

  // An answer that names an extracted field stands.
  lemma AnswerStandsAlways(list: seq<string>, detail: seq<string>, renamed: map<string, string>, raw: Option<Binding>,
                           stage: string, preferred: seq<string>, fold: string -> string, b: Binding)
    requires (stage == "list" || stage == "detail") && Answers(raw, renamed, list, detail, b)
    ensures Bind(list, detail, renamed, raw, stage, preferred, fold) == Some(b)
  {
    hide FirstMatch;
  }

  // Otherwise the role goes to the best match by name in its own stage, then to the best match by part of a
  // name, and to nothing when there is neither.
  lemma FallbackMeans(list: seq<string>, detail: seq<string>, renamed: map<string, string>, raw: Option<Binding>,
                      stage: string, preferred: seq<string>, fold: string -> string, i: nat, k: nat)
    requires (stage == "list" || stage == "detail") && forall b :: !Answers(raw, renamed, list, detail, b)
    ensures var keys, bound := if stage == "list" then list else detail, Bind(list, detail, renamed, raw, stage, preferred, fold);
            && (BestMatch(keys, preferred, fold, true, i, k) ==> bound == Some(Dotted(stage, keys[k])))
            && (NoMatch(keys, preferred, fold, true) && BestMatch(keys, preferred, fold, false, i, k) ==> bound == Some(Dotted(stage, keys[k])))
            && (NoMatch(keys, preferred, fold, true) && NoMatch(keys, preferred, fold, false) ==> bound == None)
  {
    hide FirstMatch, Matches, BestMatch, NoMatch;
    var keys := if stage == "list" then list else detail;
    NoAnswer(list, detail, renamed, raw, stage, preferred, fold);
    if BestMatch(keys, preferred, fold, true, i, k) { FirstMatchMeans(keys, preferred, fold, true, i, k); InRange(keys, preferred, fold, true, i, k); }
    if BestMatch(keys, preferred, fold, false, i, k) { FirstMatchMeans(keys, preferred, fold, false, i, k); InRange(keys, preferred, fold, false, i, k); }
    if NoMatch(keys, preferred, fold, true) { FirstMatchNone(keys, preferred, fold, true); }
    if NoMatch(keys, preferred, fold, false) { FirstMatchNone(keys, preferred, fold, false); }
  }

  lemma InRange(keys: seq<string>, preferred: seq<string>, fold: string -> string, whole: bool, i: nat, k: nat)
    ensures BestMatch(keys, preferred, fold, whole, i, k) ==> k < |keys|
  {
  }

  lemma NoAnswer(list: seq<string>, detail: seq<string>, renamed: map<string, string>, raw: Option<Binding>,
                 stage: string, preferred: seq<string>, fold: string -> string)
    requires (stage == "list" || stage == "detail") && forall b :: !Answers(raw, renamed, list, detail, b)
    ensures var keys := if stage == "list" then list else detail;
            Bind(list, detail, renamed, raw, stage, preferred, fold) ==
            match FirstMatch(keys, preferred, fold, true)
            case Some(found) => Some(Dotted(stage, found))
            case None => (match FirstMatch(keys, preferred, fold, false) case Some(similar) => Some(Dotted(stage, similar)) case None => None)
  {
    hide FirstMatch;
    if raw.Some? && raw.value.Dotted? {
      var b := if raw.value.stage == "detail" && raw.value.key in renamed then Dotted("detail", renamed[raw.value.key]) else raw.value;
      assert !Answers(raw, renamed, list, detail, b);
    }
  }

  // Every role is bound by itself, from its own answer.
  lemma {:induction false} RolesMean(list: seq<string>, detail: seq<string>, renamed: map<string, string>, raw: map<string, Binding>,
                                     fold: string -> string, n: nat, i: nat)
    requires i < n <= |ROLES|
    ensures var role, bound := ROLES[i], BindAll(list, detail, renamed, raw, fold, n);
            var own := Bind(list, detail, renamed, if role.name in raw then Some(raw[role.name]) else None, role.stage, role.preferred, fold);
            (role.name in bound <==> own.Some?) && (own.Some? ==> bound[role.name] == own.value)
    decreases n
  {
    hide Bind;
    RolesDistinct();
    if i < n - 1 {
      RolesMean(list, detail, renamed, raw, fold, n - 1, i);
    } else {
      NotYetBound(list, detail, renamed, raw, fold, n - 1, i);
    }
  }

  lemma {:induction false} NotYetBound(list: seq<string>, detail: seq<string>, renamed: map<string, string>, raw: map<string, Binding>,
                                       fold: string -> string, n: nat, i: nat)
    requires n <= i < |ROLES| && (forall a, b :: 0 <= a < b < |ROLES| ==> ROLES[a].name != ROLES[b].name)
    ensures ROLES[i].name !in BindAll(list, detail, renamed, raw, fold, n)
    decreases n
  {
    hide Bind;
    if n > 0 { NotYetBound(list, detail, renamed, raw, fold, n - 1, i); }
  }

  lemma RolesDistinct()
    ensures forall a, b :: 0 <= a < b < |ROLES| ==> ROLES[a].name != ROLES[b].name
    ensures |ROLES| == 6 && ROLES[0].name == "detailUrl" && ROLES[1].name == "listTitle" && ROLES[2].name == "listPublishedAt"
    ensures ROLES[3].name == "title" && ROLES[4].name == "publishedAt" && ROLES[5].name == "content"
    ensures ROLES[0].stage == ROLES[1].stage == ROLES[2].stage == "list" && ROLES[3].stage == ROLES[4].stage == ROLES[5].stage == "detail"
  {
    assert |"detailUrl"| == 9 && |"listTitle"| == 9 && |"listPublishedAt"| == 15 && |"title"| == 5 && |"publishedAt"| == 11 && |"content"| == 7;
    assert "detailUrl"[0] != "listTitle"[0];
  }

  // ---------------------------------------------------------------- joining the stages

  // A field bound under its own name takes the rule of the stage it is bound to; any other takes the rule of
  // the detail stage where there is one, and of the list stage otherwise.
  lemma JoinMeans(list: map<string, Rule>, detail: map<string, Rule>, bindings: map<string, Binding>, key: string)
    ensures var merged := MergeFields(list, detail, bindings);
            && (key in merged <==> key in list || key in detail)
            && (key in merged && key in bindings && bindings[key] == Dotted("list", key) ==> merged[key] == if key in list then Some(list[key]) else None)
            && (key in merged && key in bindings && bindings[key] == Dotted("detail", key) ==> merged[key] == if key in detail then Some(detail[key]) else None)
            && (key in merged && !(key in bindings && (bindings[key] == Dotted("list", key) || bindings[key] == Dotted("detail", key))) ==>
                  merged[key] == Some(if key in detail then detail[key] else list[key]))
  {
    assert "list" != "detail" by { assert |"list"| != |"detail"|; }
  }
}
