/**
 Rule plans under a frozen collection version.

 normalize_rule_plan (backend/src/extrio/model_gateway.py) binds roles to the extracted fields,
 constrain_rule_plan (backend/src/extrio/collection_fields.py) forces the plan onto the frozen
 fields, and _merge_stage_fields (backend/src/extrio/harvest.py) joins the two stages.  A binding
 "stage.key" is kept split at its first dot; the parts of an extraction rule that no function here
 reads are one opaque value.
 */
module RulePlan {
  import opened Prelude
  import opened Text

  datatype Binding = Dotted(stage: string, key: string) | Plain(name: string)

  datatype Rule = Rule(selector: string, mechanics: string, caption: string, required: bool, valueType: string, onError: string,
                       format: Option<string>, timezone: Option<string>)

  datatype Plan = Plan(listDetail: bool, list: map<string, Rule>, detail: map<string, Rule>, bindings: map<string, Binding>,
                       identity: seq<string>, fingerprint: seq<string>)

  datatype Frozen = Frozen(caption: string, kind: string, required: bool)

  datatype Version = Version(fields: map<string, Frozen>, identity: seq<string>, fingerprint: seq<string>)

  const DETAIL_URL := "detailUrl"
  const LIST_DATE := "listPublishedAt"
  const LIST_DATE_LABEL := "\U{5217}\U{8868}\U{65e5}\U{671f}"

  function KeyOf(b: Binding): string {
    match b case Dotted(_, key) => key case Plain(name) => name
  }

  // The date column the list stage hands over, if the plan binds one.
  function DateKey(p: Plan): Option<string> {
    if p.listDetail && LIST_DATE in p.bindings && p.bindings[LIST_DATE].Dotted? && p.bindings[LIST_DATE].stage == "list"
    then Some(p.bindings[LIST_DATE].key) else None
  }

  // ---------------------------------------------------------------- the frozen contract

  function DateRule(rule: Rule): Rule {
    rule.(caption := LIST_DATE_LABEL, required := false, valueType := "string", onError := "null")
  }

  function Handover(p: Plan, v: Version): Plan {
    match DateKey(p)
    case Some(key) =>
      if key !in v.fields && key in p.list then
        p.(list := p.list[LIST_DATE := DateRule(p.list[key])], bindings := p.bindings[LIST_DATE := Dotted("list", LIST_DATE)])
      else p
    case None => p
  }

  function ValueType(kind: string): string {
    if kind == "date" then "string" else if kind == "object" || kind == "array" then "json" else kind
  }

  function Conform(rule: Rule, f: Frozen): Rule {
    rule.(caption := Prefix(f.caption, 64), required := f.required, valueType := ValueType(f.kind),
          onError := if f.required then "reject_item" else "null",
          format := if f.kind != "datetime" then None else if rule.format.Some? then rule.format else Some("RFC3339"),
          timezone := if f.kind != "datetime" then None else if rule.timezone.Some? then rule.timezone else Some("UTC"))
  }

  // The fields the list stage may keep although the version does not name them.
  predicate HandoffField(p: Plan, key: string) {
    p.listDetail && (key == DETAIL_URL || (key == LIST_DATE && LIST_DATE in p.bindings && p.bindings[LIST_DATE] == Dotted("list", LIST_DATE)))
  }

  predicate Stays(key: string, v: Version, p: Plan, isList: bool) {
    key in v.fields || (isList && HandoffField(p, key))
  }

  function Reshape(key: string, rule: Rule, v: Version): Rule {
    if key in v.fields then Conform(rule, v.fields[key]) else rule
  }

  function ConformStage(fields: map<string, Rule>, v: Version, p: Plan, isList: bool): map<string, Rule> {
    map key | key in fields && Stays(key, v, p, isList) :: Reshape(key, fields[key], v)
  }

  predicate Survives(b: Binding, v: Version, listDetail: bool) {
    KeyOf(b) in v.fields || (listDetail && (b == Dotted("list", DETAIL_URL) || b == Dotted("list", LIST_DATE)))
  }

  function Available(p: Plan): set<string> {
    p.list.Keys + if p.listDetail then p.detail.Keys else {}
  }

  function Constrain(plan: Plan, v: Version): Result<Plan, set<string>> {
    var p := Handover(plan, v);
    var missing := v.fields.Keys - Available(p);
    if missing != {} then Err(missing)
    else
      Ok(Plan(p.listDetail, ConformStage(p.list, v, p, true), if p.listDetail then ConformStage(p.detail, v, p, false) else p.detail,
              map role | role in p.bindings && Survives(p.bindings[role], v, p.listDetail) :: p.bindings[role],
              v.identity, v.fingerprint))
  }

  // ---------------------------------------------------------------- the function in the source's form

  method ConformInPlace(fields: map<string, Rule>, v: Version, p: Plan, isList: bool) returns (stage: map<string, Rule>)
    ensures stage == ConformStage(fields, v, p, isList)
  {
    hide Stays, Reshape, Conform, HandoffField;
    stage := fields;
    var left := fields.Keys;
    while left != {}
      invariant left <= fields.Keys
      invariant forall key :: key in stage <==> key in fields && (key in left || Stays(key, v, p, isList))
      invariant forall key :: key in stage ==> stage[key] == if key in left then fields[key] else Reshape(key, fields[key], v)
      decreases |left|
    {
      var key :| key in left;
      left := left - {key};
      StaysCases(key, fields[key], v, p, isList);
      if key !in v.fields {
        if !(isList && HandoffField(p, key)) { stage := stage - {key}; }
      } else {
        stage := stage[key := Conform(stage[key], v.fields[key])];
      }
    }
  }

  lemma StaysCases(key: string, rule: Rule, v: Version, p: Plan, isList: bool)
    ensures Stays(key, v, p, isList) <==> key in v.fields || (isList && HandoffField(p, key))
    ensures Reshape(key, rule, v) == if key in v.fields then Conform(rule, v.fields[key]) else rule
  {
  }

  method ConstrainRulePlan(plan: Plan, v: Version) returns (result: Result<Plan, set<string>>)
    ensures result == Constrain(plan, v)
  {
    hide Conform, HandoffField, ConformStage;
    var p := plan;
    if p.listDetail && LIST_DATE in p.bindings && p.bindings[LIST_DATE].Dotted? && p.bindings[LIST_DATE].stage == "list" {
      var key := p.bindings[LIST_DATE].key;
      if key !in v.fields && key in p.list {
        p := p.(list := p.list[LIST_DATE := DateRule(p.list[key])]);
        p := p.(bindings := p.bindings[LIST_DATE := Dotted("list", LIST_DATE)]);
      }
    }
    var missing := v.fields.Keys - Available(p);
    if missing != {} { return Err(missing); }
    var list := ConformInPlace(p.list, v, p, true);
    var detail := p.detail;
    if p.listDetail { detail := ConformInPlace(p.detail, v, p, false); }
    result := Ok(Plan(p.listDetail, list, detail,
                      map role | role in p.bindings && Survives(p.bindings[role], v, p.listDetail) :: p.bindings[role],
                      v.identity, v.fingerprint));
  }

  // ---------------------------------------------------------------- a fixed point

  lemma ConformTwice(rule: Rule, f: Frozen)
    ensures Conform(Conform(rule, f), f) == Conform(rule, f)
  {
  }

  lemma StageTwice(fields: map<string, Rule>, v: Version, p: Plan, q: Plan, isList: bool)
    requires forall key :: key in fields && Stays(key, v, p, isList) ==> Stays(key, v, q, isList)
    ensures ConformStage(ConformStage(fields, v, p, isList), v, q, isList) == ConformStage(fields, v, p, isList)
  {
    hide Stays, Conform;
    forall key | key in fields ensures Reshape(key, Reshape(key, fields[key], v), v) == Reshape(key, fields[key], v) {
      if key in v.fields { ConformTwice(fields[key], v.fields[key]); }
    }
  }

  // The second application happens in build_gather_spec_from_plan: it changes nothing.
  lemma ConstrainTwice(plan: Plan, v: Version)
    requires Constrain(plan, v).Ok?
    ensures Constrain(Constrain(plan, v).value, v) == Constrain(plan, v)
  {
    hide Conform, ConformStage, Handover, Reshape;
    var p, q := Handover(plan, v), Constrain(plan, v).value;
    DateSettled(plan, v);
    StageTwice(p.list, v, p, q, true);
    if p.listDetail { StageTwice(p.detail, v, p, q, false); }
    FrozenStay(p.list, v, p, true);
    FrozenStay(p.detail, v, p, false);
    assert q.bindings == map role | role in q.bindings && Survives(q.bindings[role], v, q.listDetail) :: q.bindings[role];
  }

  lemma FrozenStay(fields: map<string, Rule>, v: Version, p: Plan, isList: bool)
    ensures forall key :: key in v.fields && key in fields ==> key in ConformStage(fields, v, p, isList)
  {
    hide HandoffField, Conform;
  }

  lemma DateSettled(plan: Plan, v: Version)
    requires Constrain(plan, v).Ok?
    ensures Handover(Constrain(plan, v).value, v) == Constrain(plan, v).value
  {
    hide Conform;
    var p, q := Handover(plan, v), Constrain(plan, v).value;
    if DateKey(q).Some? && DateKey(q).value !in v.fields && DateKey(q).value in q.list {
      assert DateKey(q).value == LIST_DATE;
      assert q.list[LIST_DATE] == p.list[LIST_DATE] == DateRule(p.list[LIST_DATE]);
      assert q.list[LIST_DATE := DateRule(q.list[LIST_DATE])] == q.list;
      assert q.bindings[LIST_DATE := Dotted("list", LIST_DATE)] == q.bindings;
    }
  }

  // ---------------------------------------------------------------- what the contract fixes

  // A constrained plan extracts exactly the frozen fields (plus the hand-off columns of the list
  // stage), each with the frozen semantics, and never changes how a field is extracted.
  lemma FrozenSemantics(plan: Plan, v: Version)
    ensures Constrain(plan, v).Ok? <==> v.fields.Keys <= Available(Handover(plan, v))
    ensures Constrain(plan, v).Ok? ==>
              var p, q := Handover(plan, v), Constrain(plan, v).value;
              && v.fields.Keys <= Available(q)
              && q.identity == v.identity && q.fingerprint == v.fingerprint
              && StageContract(p.list, q.list, v, if q.listDetail then {DETAIL_URL, LIST_DATE} else {})
              && (q.listDetail ==> StageContract(p.detail, q.detail, v, {}))
  {
    hide Handover, ConformStage, StageContract;
    var p := Handover(plan, v);
    assert forall key :: key in v.fields.Keys && key !in Available(p) ==> key in v.fields.Keys - Available(p);
    FrozenStay(p.list, v, p, true);
    FrozenStay(p.detail, v, p, false);
    StageMeets(p.list, v, p, true);
    StageMeets(p.detail, v, p, false);
  }

  // A stage after the contract: frozen fields with frozen semantics, otherwise only hand-off columns,
  // all extracted the way they were.
  predicate StageContract(before: map<string, Rule>, after: map<string, Rule>, v: Version, extra: set<string>) {
    && (forall key :: key in before && key in v.fields ==> key in after)
    && (forall key :: key in after ==> key in before && SameMechanics(after[key], before[key]) && (key in v.fields || key in extra))
    && (forall key :: key in after && key in v.fields ==> HasSemantics(after[key], v.fields[key]))
  }

  lemma StageMeets(fields: map<string, Rule>, v: Version, p: Plan, isList: bool)
    ensures StageContract(fields, ConformStage(fields, v, p, isList), v, if isList && p.listDetail then {DETAIL_URL, LIST_DATE} else {})
  {
    hide Prefix, ValueType;
  }

  predicate SameMechanics(a: Rule, b: Rule) {
    a.selector == b.selector && a.mechanics == b.mechanics
  }

  // Only the frozen field decides name, type, obligation and failure handling.
  predicate HasSemantics(r: Rule, f: Frozen) {
    && r.caption == Prefix(f.caption, 64) && r.required == f.required && r.valueType == ValueType(f.kind)
    && (r.onError == "reject_item" <==> f.required) && (r.format.Some? <==> f.kind == "datetime") && (r.timezone.Some? <==> f.kind == "datetime")
  }

  // ---------------------------------------------------------------- bindings

  predicate Names(p: Plan, b: Binding) {
    b.Dotted? && ((b.stage == "list" && b.key in p.list) || (b.stage == "detail" && p.listDetail && b.key in p.detail))
  }

  // What normalize_rule_plan guarantees of a list_detail plan: every binding names an extracted field.
  predicate Integral(p: Plan) {
    forall role :: role in p.bindings ==> Names(p, p.bindings[role])
  }

  // The list date column is dropped although a role other than listPublishedAt still names it.
  predicate DropsBoundDate(p: Plan, v: Version) {
    && LIST_DATE !in v.fields
    && (exists role :: role in p.bindings && p.bindings[role] == Dotted("list", LIST_DATE))
    && !(DateKey(p).Some? && DateKey(p).value !in v.fields)
  }

  lemma HandoverIntegral(p: Plan, v: Version)
    requires p.listDetail && Integral(p)
    ensures Integral(Handover(p, v))
    ensures LIST_DATE in Handover(p, v).bindings && Handover(p, v).bindings[LIST_DATE] == Dotted("list", LIST_DATE)
            <==> (DateKey(p).Some? && (DateKey(p).value !in v.fields || DateKey(p).value == LIST_DATE))
  {
    hide DateRule;
    if DateKey(p).Some? {
      assert Names(p, p.bindings[LIST_DATE]);
    }
  }

  // Exactly when the surviving bindings still name extracted fields.  The guard is on the input:
  // a role may not be bound to the list date column while that column is neither frozen nor the
  // hand-over of the listPublishedAt role.
  lemma BindingsSurvive(p: Plan, v: Version)
    requires p.listDetail && Integral(p) && Constrain(p, v).Ok?
    ensures Integral(Constrain(p, v).value) <==> !DropsBoundDate(p, v)
  {
    hide Constrain, Integral;
    if DropsBoundDate(p, v) {
      DroppedDate(p, v);
    } else {
      SurvivingBindings(p, v);
    }
  }

  lemma ConstrainedKeys(p: Plan, v: Version)
    requires p.listDetail && Constrain(p, v).Ok?
    ensures var h, q := Handover(p, v), Constrain(p, v).value;
            && q.listDetail && h.listDetail
            && (forall key :: key in q.list <==> key in h.list && Stays(key, v, h, true))
            && (forall key :: key in q.detail <==> key in h.detail && key in v.fields)
            && (forall role :: role in q.bindings <==> role in h.bindings && Survives(h.bindings[role], v, true))
            && (forall role :: role in q.bindings ==> q.bindings[role] == h.bindings[role])
  {
    hide Conform, HandoffField, Survives;
  }

  lemma DroppedDate(p: Plan, v: Version)
    requires p.listDetail && Integral(p) && Constrain(p, v).Ok? && DropsBoundDate(p, v)
    ensures !Integral(Constrain(p, v).value)
  {
    hide Constrain, Handover, DateKey, HandoffField;
    var h, q := Handover(p, v), Constrain(p, v).value;
    HandoverIntegral(p, v);
    HandoverBindings(p, v);
    ConstrainedKeys(p, v);
    var role :| role in p.bindings && p.bindings[role] == Dotted("list", LIST_DATE);
    DateRole(p, v, role);
    assert h.bindings[role] == p.bindings[role] && role in q.bindings;
    DateKept(h);
    assert !Names(q, q.bindings[role]);
  }

  lemma DateRole(p: Plan, v: Version, role: string)
    requires p.listDetail && DropsBoundDate(p, v) && role in p.bindings && p.bindings[role] == Dotted("list", LIST_DATE)
    ensures role != LIST_DATE
  {
  }

  lemma DateKept(p: Plan)
    ensures HandoffField(p, LIST_DATE) <==> p.listDetail && LIST_DATE in p.bindings && p.bindings[LIST_DATE] == Dotted("list", LIST_DATE)
    ensures HandoffField(p, DETAIL_URL) <==> p.listDetail
  {
  }

  lemma SurvivingBindings(p: Plan, v: Version)
    requires p.listDetail && Integral(p) && Constrain(p, v).Ok? && !DropsBoundDate(p, v)
    ensures Integral(Constrain(p, v).value)
  {
    hide Constrain, Handover, HandoffField, DateKey;
    var h, q := Handover(p, v), Constrain(p, v).value;
    HandoverIntegral(p, v);
    HandoverBindings(p, v);
    ConstrainedKeys(p, v);
    DateKept(h);
    forall role | role in q.bindings ensures Names(q, q.bindings[role]) {
      assert Names(h, h.bindings[role]);
      assert h.bindings[role] == Dotted("list", LIST_DATE) && LIST_DATE !in v.fields && role != LIST_DATE ==> p.bindings[role] == Dotted("list", LIST_DATE);
    }
  }

  lemma HandoverBindings(p: Plan, v: Version)
    ensures var h := Handover(p, v);
            && h.listDetail == p.listDetail
            && (forall role :: role in p.bindings ==> role in h.bindings && (role != LIST_DATE ==> h.bindings[role] == p.bindings[role]))
            && (forall role :: role in h.bindings ==> role in p.bindings)
  {
  }

  // ---------------------------------------------------------------- where the bindings come from

  // The first key that the preferred names match, trying the names in order: equality first,
  // then containment, both up to case folding.
  function FirstKey(keys: seq<string>, name: string, fold: string -> string, whole: bool): (r: Option<string>)
    ensures r.Some? ==> r.value in keys
  {
    if keys == [] then None
    else if (whole && fold(keys[0]) == fold(name)) || (!whole && Contains(fold(keys[0]), fold(name))) then Some(keys[0])
    else FirstKey(keys[1..], name, fold, whole)
  }

  function FirstMatch(keys: seq<string>, preferred: seq<string>, fold: string -> string, whole: bool): (r: Option<string>)
    ensures r.Some? ==> r.value in keys
  {
    if preferred == [] then None
    else
      var found := FirstKey(keys, preferred[0], fold, whole);
      if found.Some? then found else FirstMatch(keys, preferred[1..], fold, whole)
  }

  // `binding` of normalize_rule_plan, in list_detail mode.
  function Bind(list: seq<string>, detail: seq<string>, renamed: map<string, string>, raw: Option<Binding>,
                stage: string, preferred: seq<string>, fold: string -> string): (r: Option<Binding>)
    requires stage == "list" || stage == "detail"
    ensures r.Some? ==> r.value.Dotted? && ((r.value.stage == "list" && r.value.key in list) || (r.value.stage == "detail" && r.value.key in detail))
  {
    var asked := if raw.Some? && raw.value.Dotted? then
                   if raw.value.stage == "detail" && raw.value.key in renamed then Some(Dotted("detail", renamed[raw.value.key])) else raw
                 else None;
    if asked.Some? && asked.value.stage == "list" && asked.value.key in list then asked
    else if asked.Some? && asked.value.stage == "detail" && asked.value.key in detail then asked
    else
      var keys := if stage == "list" then list else detail;
      var found := FirstMatch(keys, preferred, fold, true);
      if found.Some? then Some(Dotted(stage, found.value))
      else
        var similar := FirstMatch(keys, preferred, fold, false);
        if similar.Some? then Some(Dotted(stage, similar.value)) else None
  }

  datatype Role = Role(name: string, stage: string, preferred: seq<string>)

  const ROLES := [
    Role("detailUrl", "list", ["detailUrl", "url", "link"]),
    Role("listTitle", "list", ["listTitle", "title", "name"]),
    Role("listPublishedAt", "list", ["listPublishedAt", "publishDate", "publishedAt", "date", "time"]),
    Role("title", "detail", ["title", "detailTitle", "projectName", "name"]),
    Role("publishedAt", "detail", ["publishedAt", "publishDate", "date", "time"]),
    Role("content", "detail", ["content", "body", "contentHtml", "description"])]

  function BindAll(list: seq<string>, detail: seq<string>, renamed: map<string, string>, raw: map<string, Binding>,
                   fold: string -> string, n: nat): map<string, Binding>
    requires n <= |ROLES|
  {
    if n == 0 then map[]
    else
      var role, before := ROLES[n - 1], BindAll(list, detail, renamed, raw, fold, n - 1);
      var bound := Bind(list, detail, renamed, if role.name in raw then Some(raw[role.name]) else None, role.stage, role.preferred, fold);
      if bound.Some? then before[role.name := bound.value] else before
  }

  // Whatever the model answered, a normalized list_detail plan binds roles to extracted fields only.
  lemma {:induction false} NormalizedIsIntegral(p: Plan, list: seq<string>, detail: seq<string>, renamed: map<string, string>,
                                                raw: map<string, Binding>, fold: string -> string, n: nat)
    requires n <= |ROLES| && p.listDetail
    requires (forall key :: key in list ==> key in p.list) && (forall key :: key in detail ==> key in p.detail)
    requires p.bindings == BindAll(list, detail, renamed, raw, fold, n)
    ensures Integral(p)
    decreases n
  {
    hide Bind;
    if n > 0 {
      var before := BindAll(list, detail, renamed, raw, fold, n - 1);
      NormalizedIsIntegral(p.(bindings := before), list, detail, renamed, raw, fold, n - 1);
      forall role | role in p.bindings ensures Names(p, p.bindings[role]) {
        if role in before && before[role] == p.bindings[role] {
          assert Names(p.(bindings := before), before[role]);
        }
      }
    }
  }

  // It is not true that every surviving binding names a field of its stage.  In this plan publishedAt
  // borrows the list date while listPublishedAt is bound to a frozen column.
  const SAMPLE_LIST := ["detailUrl", "listTitle", "day", "listPublishedAt"]
  const SAMPLE_DETAIL := ["title", "content"]

  function SampleRule(): Rule {
    Rule("css:time::text", "", "", false, "string", "null", None, None)
  }

  // What the model answered for the roles; each names an extracted field.
  function SampleAnswer(): map<string, Binding> {
    map["detailUrl" := Dotted("list", "detailUrl"), "listTitle" := Dotted("list", "listTitle"), "listPublishedAt" := Dotted("list", "day"),
        "title" := Dotted("detail", "title"), "publishedAt" := Dotted("list", "listPublishedAt"), "content" := Dotted("detail", "content")]
  }

  function SamplePlan(fold: string -> string): Plan {
    Plan(true, map["detailUrl" := SampleRule(), "listTitle" := SampleRule(), "day" := SampleRule(), "listPublishedAt" := SampleRule()],
         map["title" := SampleRule(), "content" := SampleRule()],
         BindAll(SAMPLE_LIST, SAMPLE_DETAIL, map[], SampleAnswer(), fold, |ROLES|), ["detailUrl"], ["title", "content"])
  }

  function SampleVersion(): Version {
    Version(map["day" := Frozen("Day", "string", true), "title" := Frozen("Title", "string", true)], ["day"], ["title"])
  }

  // The answer for a role names an extracted field.
  predicate Answered(role: string) {
    && role in SampleAnswer() && SampleAnswer()[role].Dotted?
    && ((SampleAnswer()[role].stage == "list" && SampleAnswer()[role].key in SAMPLE_LIST)
        || (SampleAnswer()[role].stage == "detail" && SampleAnswer()[role].key in SAMPLE_DETAIL))
  }

  // Such a role gets that binding, whatever names it prefers.
  lemma AnswerStands(role: nat, fold: string -> string)
    requires role < |ROLES| && Answered(ROLES[role].name)
    ensures Bind(SAMPLE_LIST, SAMPLE_DETAIL, map[], Some(SampleAnswer()[ROLES[role].name]), ROLES[role].stage, ROLES[role].preferred, fold)
            == Some(SampleAnswer()[ROLES[role].name])
  {
    hide FirstMatch;
  }

  lemma SampleFields()
    ensures "detailUrl" in SAMPLE_LIST && "listTitle" in SAMPLE_LIST && "day" in SAMPLE_LIST && "listPublishedAt" in SAMPLE_LIST
    ensures "title" in SAMPLE_DETAIL && "content" in SAMPLE_DETAIL
  {
    assert SAMPLE_LIST[0] == "detailUrl" && SAMPLE_LIST[1] == "listTitle" && SAMPLE_LIST[2] == "day" && SAMPLE_LIST[3] == "listPublishedAt";
    assert SAMPLE_DETAIL[0] == "title" && SAMPLE_DETAIL[1] == "content";
  }

  lemma SampleAnswers(i: nat)
    requires i < |ROLES|
    ensures Answered(ROLES[i].name)
  {
    SampleFields();
  }

  // The normalizer returns the model's answer for the first n roles.
  lemma {:induction false} SampleBound(fold: string -> string, n: nat)
    requires n <= |ROLES|
    ensures var bound := BindAll(SAMPLE_LIST, SAMPLE_DETAIL, map[], SampleAnswer(), fold, n);
            && (forall i :: 0 <= i < n ==> ROLES[i].name in bound)
            && (forall role :: role in bound ==> role in SampleAnswer() && bound[role] == SampleAnswer()[role])
    decreases n
  {
    hide Bind, SampleAnswer;
    if n > 0 {
      SampleBound(fold, n - 1);
      SampleAnswers(n - 1);
      AnswerStands(n - 1, fold);
    }
  }

  // The bindings are the normalizer's own output on that answer, so the plan is one the code makes,
  // and the frozen contract leaves publishedAt bound to a column it deletes.
  lemma DanglingBinding(fold: string -> string)
    ensures var p, v := SamplePlan(fold), SampleVersion();
            && p.bindings == BindAll(SAMPLE_LIST, SAMPLE_DETAIL, map[], SampleAnswer(), fold, |ROLES|) == SampleAnswer()
            && Integral(p) && Constrain(p, v).Ok? && !Integral(Constrain(p, v).value)
  {
    hide Conform, BindAll, Bind, Integral, Constrain;
    var p, v := SamplePlan(fold), SampleVersion();
    SampleBound(fold, |ROLES|);
    SampleNames();
    SampleFieldsExtracted(fold);
    NormalizedIsIntegral(p, SAMPLE_LIST, SAMPLE_DETAIL, map[], SampleAnswer(), fold, |ROLES|);
    assert p.bindings == SampleAnswer();
    SampleDrops(p, v);
    SampleContractHolds(p, v);
    DroppedDate(p, v);
  }

  lemma SampleFieldsExtracted(fold: string -> string)
    ensures forall key :: key in SAMPLE_LIST ==> key in SamplePlan(fold).list
    ensures forall key :: key in SAMPLE_DETAIL ==> key in SamplePlan(fold).detail
  {
  }

  lemma SampleNames()
    ensures forall role :: role in SampleAnswer() ==> exists i :: 0 <= i < |ROLES| && ROLES[i].name == role
  {
    assert ROLES[0].name == "detailUrl" && ROLES[1].name == "listTitle" && ROLES[2].name == "listPublishedAt";
    assert ROLES[3].name == "title" && ROLES[4].name == "publishedAt" && ROLES[5].name == "content";
  }

  lemma SampleDrops(p: Plan, v: Version)
    requires p.listDetail && p.bindings == SampleAnswer() && v == SampleVersion()
    ensures DropsBoundDate(p, v) && Handover(p, v) == p
  {
    assert p.bindings["publishedAt"] == Dotted("list", LIST_DATE) && p.bindings[LIST_DATE] == Dotted("list", "day");
    assert "listPublishedAt" != "day" && "listPublishedAt" != "title";
  }

  lemma SampleContractHolds(p: Plan, v: Version)
    requires p.listDetail && Handover(p, v) == p && "day" in p.list && "title" in p.detail && v == SampleVersion()
    ensures Constrain(p, v).Ok?
  {
    hide ConformStage;
    assert v.fields.Keys == {"day", "title"};
    assert v.fields.Keys - Available(p) == {};
  }

  // ---------------------------------------------------------------- joining the stages

  function DefaultRule(key: string, list: map<string, Rule>, detail: map<string, Rule>): Option<Rule>
    requires key in list || key in detail
  {
    if key in detail then Some(detail[key]) else Some(list[key])
  }

  function Lookup(fields: map<string, Rule>, key: string): Option<Rule> {
    if key in fields then Some(fields[key]) else None
  }

  function MergedRule(key: string, list: map<string, Rule>, detail: map<string, Rule>, bindings: map<string, Binding>): Option<Rule>
    requires key in list || key in detail
  {
    if key in bindings && bindings[key] == Dotted("list", key) then Lookup(list, key)
    else if key in bindings && bindings[key] == Dotted("detail", key) then Lookup(detail, key)
    else DefaultRule(key, list, detail)
  }

  function MergeFields(list: map<string, Rule>, detail: map<string, Rule>, bindings: map<string, Binding>): map<string, Option<Rule>> {
    map key | key in list.Keys + detail.Keys :: MergedRule(key, list, detail, bindings)
  }

  method MergeStageFields(list: map<string, Rule>, detail: map<string, Rule>, bindings: map<string, Binding>)
    returns (merged: map<string, Option<Rule>>)
    ensures merged == MergeFields(list, detail, bindings)
  {
    hide MergedRule, DefaultRule, Overlaid, MergeFields;
    merged := Overlaid(list, detail);
    var left := merged.Keys;
    while left != {}
      invariant left <= merged.Keys == Overlaid(list, detail).Keys
      invariant forall key :: key in left ==> merged[key] == DefaultRule(key, list, detail)
      invariant forall key :: key in merged.Keys - left ==> merged[key] == MergedRule(key, list, detail, bindings)
      decreases |left|
    {
      var key :| key in left;
      var rule := PreferBound(key, merged[key], list, detail, bindings);
      merged := merged[key := rule];
      left := left - {key};
    }
    assert forall key :: key in merged ==> merged[key] == MergedRule(key, list, detail, bindings);
    MergedAll(merged, list, detail, bindings);
  }

  lemma MergedAll(m: map<string, Option<Rule>>, list: map<string, Rule>, detail: map<string, Rule>, bindings: map<string, Binding>)
    requires forall key :: key in m <==> key in list || key in detail
    requires forall key :: key in m ==> m[key] == MergedRule(key, list, detail, bindings)
    ensures m == MergeFields(list, detail, bindings)
  {
    hide MergedRule;
  }

  function Overlaid(list: map<string, Rule>, detail: map<string, Rule>): (m: map<string, Option<Rule>>)
    ensures forall key :: key in m <==> key in list || key in detail
    ensures forall key :: key in m ==> m[key] == DefaultRule(key, list, detail)
  {
    map key | key in list.Keys + detail.Keys :: DefaultRule(key, list, detail)
  }

  method PreferBound(key: string, default: Option<Rule>, list: map<string, Rule>, detail: map<string, Rule>, bindings: map<string, Binding>)
    returns (rule: Option<Rule>)
    requires (key in list || key in detail) && default == DefaultRule(key, list, detail)
    ensures rule == MergedRule(key, list, detail, bindings)
  {
    rule := default;
    if key in bindings && bindings[key] == Dotted("list", key) {
      rule := Lookup(list, key);
    } else if key in bindings && bindings[key] == Dotted("detail", key) {
      rule := Lookup(detail, key);
    }
  }

  lemma MergedCases(key: string, list: map<string, Rule>, detail: map<string, Rule>, bindings: map<string, Binding>)
    requires key in list || key in detail
    ensures MergedRule(key, list, detail, bindings) ==
            if key in bindings && bindings[key] == Dotted("list", key) then Lookup(list, key)
            else if key in bindings && bindings[key] == Dotted("detail", key) then Lookup(detail, key)
            else DefaultRule(key, list, detail)
    ensures DefaultRule(key, list, detail).Some? && (Lookup(list, key).Some? <==> key in list) && (Lookup(detail, key).Some? <==> key in detail)
  {
  }

  // Even with a dangling role, joining the stages of a constrained plan never yields a field
  // without a rule, and it yields every frozen field.
  lemma MergeIsComplete(p: Plan, v: Version)
    requires p.listDetail && Integral(p) && Constrain(p, v).Ok?
    ensures var q := Constrain(p, v).value;
            var merged := MergeFields(q.list, q.detail, q.bindings);
            && v.fields.Keys <= merged.Keys
            && forall key :: key in merged ==> merged[key].Some?
  {
    hide Constrain, Handover, MergedRule, Integral, Available;
    var q := Constrain(p, v).value;
    assert v.fields.Keys <= q.list.Keys + q.detail.Keys by { FrozenPresent(p, v); }
    forall key | key in q.list.Keys + q.detail.Keys ensures MergedRule(key, q.list, q.detail, q.bindings).Some? {
      OwnBinding(p, v, key);
      MergedCases(key, q.list, q.detail, q.bindings);
    }
  }

  lemma FrozenPresent(p: Plan, v: Version)
    requires p.listDetail && Constrain(p, v).Ok?
    ensures v.fields.Keys <= Constrain(p, v).value.list.Keys + Constrain(p, v).value.detail.Keys
  {
    hide Constrain, Handover, StageContract;
    FrozenSemantics(p, v);
    ConstrainedKeys(p, v);
  }

  // A role bound to the field of its own name always finds it.
  lemma OwnBinding(p: Plan, v: Version, key: string)
    requires p.listDetail && Integral(p) && Constrain(p, v).Ok?
    ensures var q := Constrain(p, v).value;
            key in q.bindings ==> (q.bindings[key] == Dotted("list", key) ==> key in q.list) && (q.bindings[key] == Dotted("detail", key) ==> key in q.detail)
  {
    hide Constrain, Handover, HandoffField, DateKey;
    var h, q := Handover(p, v), Constrain(p, v).value;
    HandoverIntegral(p, v);
    HandoverBindings(p, v);
    ConstrainedKeys(p, v);
    DateKept(h);
    if key in q.bindings {
      assert Names(h, h.bindings[key]);
    }
  }
}
