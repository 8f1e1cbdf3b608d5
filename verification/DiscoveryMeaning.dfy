/**
 What normalization keeps and what it replaces, value by value: an answer in the dialect stays as it is, a
 synonym becomes the word it stands for, and anything else becomes the default.
 */
module DiscoveryMeaning {
  import opened Prelude
  import opened Text
  import opened DiscoveryPlan

  // ---------------------------------------------------------------- selectors

  // Without an outdated call a text stays as it is; otherwise the first one is replaced and the rest is
  // treated the same way.
  lemma ReplaceMeans(s: string)
    ensures !Contains(s, ":containsOwn(") ==> Replace(s) == s
  {
    ReplaceShrinks(s);
  }

  lemma {:induction false} ReplaceFirst(before: string, after: string)
    requires forall i :: 0 <= i < |before| ==> !(":containsOwn(" <= (before + ":containsOwn(" + after)[i..])
    ensures Replace(before + ":containsOwn(" + after) == before + ":contains(" + Replace(after)
  {
    var s := before + ":containsOwn(" + after;
    if before == "" {
      assert s[13..] == after;
    } else {
      var rest := before[1..] + ":containsOwn(" + after;
      assert s == [before[0]] + rest && s[0..] == s && !(OWN <= s);
      forall i | 0 <= i < |before[1..]| ensures !(OWN <= rest[i..]) { assert rest[i..] == s[i + 1..]; }
      ReplaceFirst(before[1..], after);
      assert s[1..] == rest;
      assert [before[0]] + (before[1..] + ":contains(" + Replace(after)) == before + ":contains(" + Replace(after);
    }
  }

  // Apart from outdated calls a selector that names its language stays as it is stripped; any other is a JSON
  // path where the page is JSON or the text starts with a dollar sign, and a CSS selector otherwise.
  lemma SelectorMeans(raw: string, responseType: Format)
    requires !Contains(Strip(raw), ":containsOwn(")
    ensures var text, s := Strip(raw), Selector(raw, responseType);
            && ("css:" <= text || "jsonpath:" <= text ==> s == text)
            && (!("css:" <= text) && !("jsonpath:" <= text) && (responseType == Json || "$" <= text) ==> s == "jsonpath:" + text)
            && (!("css:" <= text) && !("jsonpath:" <= text) && responseType != Json && !("$" <= text) ==> s == "css:" + text)
  {
    hide Strip, Contains;
    ReplaceMeans(Strip(raw));
  }

  // Outdated calls are replaced before anything else is looked at.
  lemma SelectorReplaces(raw: string, responseType: Format)
    ensures Selector(raw, responseType) == Selector(Replace(Strip(raw)), responseType) && !Contains(Replace(Strip(raw)), ":containsOwn(")
  {
    hide Strip, Contains, Prefixed, Replace;
    ReplaceCleans(Strip(raw));
    ReplaceMeans(Replace(Strip(raw)));
    StripTrims(raw);
    TrimReplace(Strip(raw));
    StripTrims(Replace(Strip(raw)));
  }

  // ---------------------------------------------------------------- field rules

  predicate KindMeans(key: string, raw: Kind, kind: Kind) {
    && (raw in {StringKind, IntegerKind, NumberKind, BooleanKind, DatetimeKind, UrlKind, HtmlKind, JsonKind} ==> kind == raw)
    && (raw == DateAlias || raw == DateTimeAlias ==> kind == DatetimeKind)
    && (raw == FloatAlias ==> kind == NumberKind) && (raw == IntAlias ==> kind == IntegerKind) && (raw == OtherKind ==> kind == StringKind)
    && (raw == NoKind ==> kind == if key == "detailUrl" then UrlKind else StringKind)
  }

  predicate FailureMeans(raw: OnError, required: bool, onError: OnError) {
    && (raw == FailRun || raw == RejectItem || (raw == Null && !required) ==> onError == raw)
    && (!(raw == FailRun || raw == RejectItem || (raw == Null && !required)) ==> onError == if required then RejectItem else Null)
  }

  // A text selector on an HTML page says what it extracts, by the kind of the field, unless it already does.
  predicate ExtractionMeans(raw: string, responseType: Format, kind: Kind, selector: string) {
    var s := Selector(raw, responseType);
    selector == if responseType == Html && "css:" <= s && !Contains(s, "::")
                then s + (if kind == UrlKind then "::attr(href)" else if kind == HtmlKind then "::html" else "::text") else s
  }

  lemma RuleMeans(key: string, r: Rule, responseType: Format)
    ensures var n := NormalRule(key, r, responseType);
            && KindMeans(key, r.kind, n.kind)
            && n.required == Some(if r.required.Some? then r.required.value else key in {"detailUrl", "title"})
            && FailureMeans(r.onError, n.required.value, n.onError)
            && n.policy == (if r.policy == ErrorPolicy then ErrorPolicy else FirstPolicy)
            && ExtractionMeans(r.selector, responseType, n.kind, n.selector)
            && n.caption == (if |Strip(r.caption)| <= 100 then Strip(r.caption) else Strip(r.caption)[..100])
            && (n.kind == DatetimeKind ==> n.format == (if r.format == "" then "ISO8601_DATE" else r.format)
                                           && n.timezone == (if r.timezone == "" then "Asia/Shanghai" else r.timezone))
            && (n.kind != DatetimeKind ==> n.format == "" && n.timezone == "")
  {
    hide Strip, Contains, Selector, Transforms;
  }

  // ---------------------------------------------------------------- transforms

  lemma TransformMeans(t: Transform)
    ensures t.Plain? && t.name in {TrimText, CollapseSpace, Lowercase, Uppercase, AbsoluteUrl, StripHtml} ==> NormalTransform(t) == Some(t)
    ensures t == Plain(ResolveUrlAlias) || t == Plain(ResolveUrlSnakeAlias) ==> NormalTransform(t) == Some(Plain(AbsoluteUrl))
    ensures t == Plain(StripHtmlAlias) ==> NormalTransform(t) == Some(Plain(StripHtml))
    ensures t == Plain(OtherName) || t.Unknown? ==> NormalTransform(t) == None
    ensures t.UrlPath? ==> NormalTransform(t) == Some(t)
    ensures t.Regex? && Strip(t.pattern) == "" ==> NormalTransform(t) == None
    ensures t.Regex? && Strip(t.pattern) != "" ==>
              var pattern := if |Strip(t.pattern)| <= 512 then Strip(t.pattern) else Strip(t.pattern)[..512];
              NormalTransform(t) == Some(Regex(pattern, if t.group < 0 then 0 else if t.group > 8 then 8 else t.group))
  {
    hide Strip;
  }

  // The collected transforms are the known ones, each once, in the order of their first mention.
  lemma {:induction false} CollectMeans(ts: seq<Transform>, u: Transform)
    ensures u in Collect(ts) <==> exists i :: 0 <= i < |ts| && NormalTransform(ts[i]) == Some(u)
  {
    hide NormalTransform;
    if ts != [] {
      var front, last := ts[..|ts| - 1], ts[|ts| - 1];
      CollectMeans(front, u);
      assert forall i :: 0 <= i < |front| ==> front[i] == ts[i];
      if NormalTransform(last) == Some(u) { assert ts[|ts| - 1] == last; }
    }
  }

  lemma CollectOrder(ts: seq<Transform>, t: Transform)
    ensures Collect(ts) <= Collect(ts + [t]) && |Collect(ts + [t])| <= |Collect(ts)| + 1
  {
    hide NormalTransform;
    assert (ts + [t])[..|ts|] == ts;
  }

  // A rule that lists none is trimmed, and a link is always made absolute.
  lemma TransformsMean(raw: Option<seq<Transform>>, kind: Kind)
    ensures raw.Some? ==>
              var listed := Collect(raw.value);
              Transforms(raw, kind) == if kind == UrlKind && Plain(AbsoluteUrl) !in listed then listed + [Plain(AbsoluteUrl)] else listed
    ensures raw.None? ==> Transforms(raw, kind) == if kind == UrlKind then [Plain(TrimText), Plain(AbsoluteUrl)] else [Plain(TrimText)]
  {
    hide Strip;
    if raw.None? { DefaultsCollected(); }
  }

  lemma DefaultsCollected()
    ensures Collect([Plain(TrimText)]) == [Plain(TrimText)] && Collect([Plain(TrimText), Plain(AbsoluteUrl)]) == [Plain(TrimText), Plain(AbsoluteUrl)]
  {
    var a, b: Transform := Plain(TrimText), Plain(AbsoluteUrl);
    assert [a, b][..1] == [a] && [a][..0] == [];
    assert Collect([]) == [];
  }

  // ---------------------------------------------------------------- fields

  // The canonical keys in the order of their first mention.
  function FirstMentions(raw: seq<Field>, canonical: string -> string): seq<string> {
    if raw == [] then []
    else
      var before, key := FirstMentions(raw[..|raw| - 1], canonical), canonical(raw[|raw| - 1].key);
      if key in before then before else before + [key]
  }

  function KeyList(fields: seq<Field>): seq<string> {
    seq(|fields|, i requires 0 <= i < |fields| => fields[i].key)
  }

  lemma {:induction false} PutKeys(fields: seq<Field>, key: string, rule: Rule)
    ensures KeyList(Put(fields, key, rule)) == if key in KeyList(fields) then KeyList(fields) else KeyList(fields) + [key]
  {
    if fields != [] {
      var head, tail := fields[0], fields[1..];
      assert fields == [head] + tail;
      assert KeyList(fields) == [head.key] + KeyList(tail);
      if head.key == key {
        assert KeyList(Put(fields, key, rule)) == [key] + KeyList(tail);
        assert KeyList(fields)[0] == key;
      } else {
        PutKeys(tail, key, rule);
        var rest := Put(tail, key, rule);
        assert KeyList([head] + rest) == [head.key] + KeyList(rest);
      }
    }
  }

  lemma {:induction false} FieldsOrder(raw: seq<Field>, responseType: Format, canonical: string -> string)
    ensures KeyList(NormalFields(raw, responseType, canonical)) == FirstMentions(raw, canonical)
  {
    hide NormalRule;
    if raw != [] {
      var front, last := raw[..|raw| - 1], raw[|raw| - 1];
      FieldsOrder(front, responseType, canonical);
      PutKeys(NormalFields(front, responseType, canonical), canonical(last.key), NormalRule(canonical(last.key), last.rule, responseType));
    }
  }

  predicate Linkish(key: string, lower: string -> string) {
    lower(key) == "url" || lower(key) == "link" || lower(key) == "href"
  }

  lemma {:induction false} AdoptNone(fields: seq<Field>, lower: string -> string)
    ensures Adopt(fields, lower).None? <==> forall f :: f in fields ==> !Linkish(f.key, lower)
  {
    if fields != [] {
      AdoptNone(fields[1..], lower);
      assert fields == [fields[0]] + fields[1..];
    }
  }

  // A list with details hands over its first link column under the agreed name, as its last column, unless
  // it has a column of that name; without either it is refused.
  lemma {:induction false} AdoptFirst(fields: seq<Field>, lower: string -> string, i: nat)
    requires i < |fields| && Linkish(fields[i].key, lower) && forall j :: 0 <= j < i ==> !Linkish(fields[j].key, lower)
    ensures Adopt(fields, lower) == Some(fields[..i] + fields[i + 1..] + [Field("detailUrl", fields[i].rule)])
  {
    var out := fields[..i] + fields[i + 1..] + [Field("detailUrl", fields[i].rule)];
    if i == 0 {
      assert out == fields[1..] + [Field("detailUrl", fields[0].rule)];
    } else {
      var tail := fields[1..];
      assert forall k :: 0 <= k < |tail| ==> tail[k] == fields[k + 1];
      AdoptFirst(tail, lower, i - 1);
      assert tail[..i - 1] == fields[1..i] && tail[i..] == fields[i + 1..];
      assert out == [fields[0]] + (fields[1..i] + fields[i + 1..] + [Field("detailUrl", fields[i].rule)]);
    }
  }

  lemma HandOffMeans(mode: Mode, fields: seq<Field>, lower: string -> string)
    ensures mode != ListDetail || (exists f :: f in fields && f.key == "detailUrl") ==> HandOff(mode, fields, lower) == Some(fields)
    ensures mode == ListDetail && (forall f :: f in fields ==> f.key != "detailUrl") ==> HandOff(mode, fields, lower) == Adopt(fields, lower)
  {
    hide Adopt;
  }

  // ---------------------------------------------------------------- pages and plans

  function Within(raw: Option<int>, default: int, low: int, high: int): int {
    var given := if raw.Some? then raw.value else default;
    if given < low then low else if given > high then high else given
  }

  lemma PagesMean(p: Pagination, responseType: Format)
    ensures p.paging in {Link, Next, NextLink} ==>
              var linked := Pagination(NextLink, Selector(p.selector, responseType), Some(Within(p.maxPages, 20, 1, 1000)), "", None, None, None);
              NormalPagination(p, responseType) == Ok(linked)
    ensures p.paging in {PageNumber, PageQuery} ==>
              var start := if p.start.None? then 1 else if p.start.value < 0 then 0 else p.start.value;
              var stops := p.stopWhenEmpty.None? || p.stopWhenEmpty.value;
              var counted := Pagination(PageQuery, "", Some(Within(p.maxPages, 20, 1, 1000)), PageParameter(p.parameter),
                                        Some(start), Some(Within(p.step, 1, 1, 1000)), Some(stops));
              NormalPagination(p, responseType) == Ok(counted)
    ensures p.paging in {NoPaging, NonePages} ==> NormalPagination(p, responseType) == Ok(Pagination(NonePages, "", None, "", None, None, None))
    ensures p.paging == OtherPaging ==> NormalPagination(p, responseType) == Err("UNSUPPORTED_PAGINATION")
  {
    hide Selector;
  }

  function PageParameter(raw: string): string {
    if raw == "" then "page" else if |raw| <= 128 then raw else raw[..128]
  }

  // A plan is accepted exactly with a known mode and response format, at least one field, a hand-off column
  // where one is needed and a known way of paging; it keeps what it says and gets the defaults for the rest.
  lemma PlanMeans(raw: Plan, squash: string -> string, lower: string -> string)
    ensures var responseType := if raw.responseType == NoFormat then Html else raw.responseType;
            var fields := NormalFields(raw.fields, responseType, Canonicals(squash));
            && (Normalize(raw, squash, lower).Ok? <==>
                  && raw.mode != OtherMode && responseType != OtherFormat && raw.fields != []
                  && HandOff(raw.mode, fields, lower).Some? && raw.pagination.paging != OtherPaging)
            && (Normalize(raw, squash, lower).Ok? ==>
                  var n := Normalize(raw, squash, lower).value;
                  && n.mode == raw.mode && n.responseType == responseType && n.transport == (if raw.transport == Http then Http else Browser)
                  && n.itemsSelector == Selector(if raw.itemsSelector != "" then raw.itemsSelector else if responseType == Json then "$" else "body", responseType)
                  && Some(n.fields) == HandOff(raw.mode, fields, lower)
                  && Ok(n.pagination) == if raw.mode == Single then Ok(NO_PAGES) else NormalPagination(raw.pagination, responseType))
  {
    hide Selector, HandOff, NormalFields;
  }

  lemma PlanAnswers(raw: Plan, squash: string -> string, lower: string -> string)
    ensures var responseType := if raw.responseType == NoFormat then Html else raw.responseType;
            var fields := NormalFields(raw.fields, responseType, Canonicals(squash));
            && (raw.mode == OtherMode ==> Normalize(raw, squash, lower) == Err("mode"))
            && (raw.mode != OtherMode && responseType == OtherFormat ==> Normalize(raw, squash, lower) == Err("list.responseType"))
            && (raw.mode != OtherMode && responseType != OtherFormat && raw.fields == [] ==> Normalize(raw, squash, lower) == Err("list.fields"))
            && (raw.mode != OtherMode && responseType != OtherFormat && raw.fields != [] && HandOff(raw.mode, fields, lower).None? ==>
                  Normalize(raw, squash, lower) == Err("list.fields.detailUrl"))
  {
    hide Selector, HandOff, NormalFields;
  }

  // ---------------------------------------------------------------- keys

  predicate TitleWord(low: string) {
    low in {"detailtitle", "articletitle", "noticetitle", "newstitle", "itemtitle", "posttitle", "pagetitle", "headline", "biaoti",
            "subject", "name", "projectname", "projname"}
  }

  predicate DateWord(low: string) {
    low in {"detailpublishdate", "pubdate", "releasetime", "postdate", "posttime", "pubtime", "publishdate",
            "publish_date", "release_date", "shijian", "date", "time"}
  }

  predicate ContentWord(low: string) {
    low in {"detailcontent", "articlecontent", "body", "articlebody", "maintext", "detailtext", "detailbody", "zhengwen", "neirong",
            "text", "description", "contenthtml"}
  }

  predicate BuyerWord(low: string) {
    low in {"purchaser", "agency", "agencyname", "buyername", "org", "organization", "caigouren"}
  }

  predicate BudgetWord(low: string) {
    low in {"budget", "price", "totalbudget", "money", "yusuan", "jine"}
  }

  predicate LinkWord(low: string) {
    low in {"detail_url", "detailurl", "link", "url", "href", "targeturl"}
  }

  // A key is stripped; five folded keys stay as they are although some are synonyms, any other synonym
  // becomes the name it stands for, and an unknown key stays.
  lemma KeyMeans(key: string, squash: string -> string)
    ensures var clean, low, name := Strip(key), squash(Strip(key)), Canonical(key, squash);
            && (low in {"amount", "buyer", "publishedat", "listtitle", "listpublishedat"} ==> name == clean)
            && (TitleWord(low) ==> name == "title") && (DateWord(low) ==> name == "publishDate") && (ContentWord(low) ==> name == "content")
            && (BuyerWord(low) ==> name == "purchaser") && (BudgetWord(low) ==> name == "budget") && (LinkWord(low) ==> name == "detailUrl")
            && (!(TitleWord(low) || DateWord(low) || ContentWord(low) || BuyerWord(low) || BudgetWord(low) || LinkWord(low)) ==> name == clean)
  {
    hide Strip, TitleWord, DateWord, ContentWord, BuyerWord, BudgetWord, LinkWord, AliasOf;
    var low := squash(Strip(key));
    TitlesAndDates(low);
    ContentsAndBuyers(low);
    BudgetsAndLinks(low);
    OtherWords(low);
  }

  lemma TitlesAndDates(low: string)
    ensures TitleWord(low) ==> AliasOf(low) == Some("title")
    ensures DateWord(low) ==> AliasOf(low) == Some("publishDate")
  {
  }

  lemma ContentsAndBuyers(low: string)
    ensures ContentWord(low) ==> AliasOf(low) == Some("content")
    ensures BuyerWord(low) ==> AliasOf(low) == Some("purchaser")
  {
  }

  lemma BudgetsAndLinks(low: string)
    ensures BudgetWord(low) ==> AliasOf(low) == Some("budget")
    ensures LinkWord(low) ==> AliasOf(low) == Some("detailUrl")
  {
  }

  lemma OtherWords(low: string)
    ensures low in {"amount", "buyer", "publishedat", "listtitle", "listpublishedat"} ==> AliasOf(low) == None
    ensures !(TitleWord(low) || DateWord(low) || ContentWord(low) || BuyerWord(low) || BudgetWord(low) || LinkWord(low)) ==> AliasOf(low) == None
  {
  }
}
