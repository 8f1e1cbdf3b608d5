/**
 Normalization of discovered list plans (backend/src/extrio/model_gateway.py): untrusted plans are
 brought into one constrained dialect.  normalize_rule_plan normalizes a plan that was already
 normalized and validated, relying on the second pass to change nothing.

 Raw and normalized plans have one type here: an empty string, None or an absent list stands for a
 key the model left out.
 */
module DiscoveryPlan {
  import opened Prelude
  import opened Text

  // The words the code compares with; the last of each stands for every other word.
  datatype Mode = Single | ListDetail | OtherMode
  datatype Format = NoFormat | Html | Json | OtherFormat
  datatype Transport = Http | Browser | OtherTransport
  datatype Paging = NoPaging | NonePages | Link | Next | NextLink | PageNumber | PageQuery | OtherPaging
  datatype Kind = NoKind | StringKind | IntegerKind | NumberKind | BooleanKind | DatetimeKind | UrlKind | HtmlKind | JsonKind
                | DateAlias | DateTimeAlias | FloatAlias | IntAlias | OtherKind
  datatype OnError = NoOnError | FailRun | RejectItem | Null | OtherOnError
  datatype Policy = ErrorPolicy | FirstPolicy | OtherPolicy
  datatype Name = TrimText | CollapseSpace | Lowercase | Uppercase | AbsoluteUrl | StripHtml
                | ResolveUrlAlias | ResolveUrlSnakeAlias | StripHtmlAlias | OtherName

  datatype Transform = Plain(name: Name) | Regex(pattern: string, group: int) | UrlPath(prefix: string) | Unknown

  datatype Rule = Rule(selector: string, kind: Kind, required: Option<bool>, onError: OnError, policy: Policy,
                       transforms: Option<seq<Transform>>, caption: string, format: string, timezone: string)

  datatype Field = Field(key: string, rule: Rule)

  datatype Pagination = Pagination(paging: Paging, selector: string, maxPages: Option<int>, parameter: string,
                                   start: Option<int>, step: Option<int>, stopWhenEmpty: Option<bool>)

  datatype Plan = Plan(mode: Mode, transport: Transport, responseType: Format, itemsSelector: string, fields: seq<Field>, pagination: Pagination)

  // ---------------------------------------------------------------- selectors

  const OWN := ":containsOwn("
  const OWN_WORD := "containsOwn("
  const CONTAINS := ":contains("

  function Replace(s: string): string
    decreases |s|
  {
    if s == "" then ""
    else if OWN <= s then CONTAINS + Replace(s[13..])
    else [s[0]] + Replace(s[1..])
  }

  predicate Prefixed(s: string) {
    "css:" <= s || "jsonpath:" <= s
  }

  function Selector(raw: string, responseType: Format): string {
    var s := Replace(Strip(raw));
    if Prefixed(s) then s
    else if responseType == Json || "$" <= s then "jsonpath:" + s
    else "css:" + s
  }

  // ---------------------------------------------------------------- field rules

  function KindOf(key: string, raw: Kind): Kind {
    var given := if raw != NoKind then raw else if key == "detailUrl" then UrlKind else StringKind;
    match given
    case DateAlias => DatetimeKind
    case DateTimeAlias => DatetimeKind
    case FloatAlias => NumberKind
    case IntAlias => IntegerKind
    case NoKind => StringKind
    case OtherKind => StringKind
    case _ => given
  }

  function NormalTransform(t: Transform): Option<Transform> {
    match t
    case Plain(name) =>
      (match name
       case ResolveUrlAlias => Some(Plain(AbsoluteUrl))
       case ResolveUrlSnakeAlias => Some(Plain(AbsoluteUrl))
       case StripHtmlAlias => Some(Plain(StripHtml))
       case OtherName => None
       case _ => Some(t))
    case Regex(pattern, group) =>
      var short := Prefix(Strip(pattern), 512);
      if short == "" then None else Some(Regex(short, Min(Max(group, 0), 8)))
    case UrlPath(_) => Some(t)
    case Unknown => None
  }

  function Collect(ts: seq<Transform>): seq<Transform> {
    if ts == [] then []
    else
      var before, next := Collect(ts[..|ts| - 1]), NormalTransform(ts[|ts| - 1]);
      if next.Some? && next.value !in before then before + [next.value] else before
  }

  function Transforms(raw: Option<seq<Transform>>, kind: Kind): seq<Transform> {
    var listed := Collect(if raw.Some? then raw.value else if kind == UrlKind then [Plain(TrimText), Plain(AbsoluteUrl)] else [Plain(TrimText)]);
    if kind == UrlKind && Plain(AbsoluteUrl) !in listed then listed + [Plain(AbsoluteUrl)] else listed
  }

  function OnErrorOf(raw: OnError, required: bool): OnError {
    var default := if required then RejectItem else Null;
    if raw == NoOnError || raw == OtherOnError || (required && raw == Null) then default else raw
  }

  function Accessor(kind: Kind): string {
    if kind == UrlKind then "::attr(href)" else if kind == HtmlKind then "::html" else "::text"
  }

  function FieldSelector(raw: string, responseType: Format, kind: Kind): string {
    var s := Selector(raw, responseType);
    if responseType == Html && "css:" <= s && !Contains(s, "::") then s + Accessor(kind) else s
  }

  function NormalRule(key: string, r: Rule, responseType: Format): Rule {
    var kind := KindOf(key, r.kind);
    var required := if r.required.Some? then r.required.value else key == "detailUrl" || key == "title";
    Rule(FieldSelector(r.selector, responseType, kind), kind, Some(required), OnErrorOf(r.onError, required),
         if r.policy == ErrorPolicy then ErrorPolicy else FirstPolicy,
         Some(Transforms(r.transforms, kind)), Prefix(Strip(r.caption), 100),
         if kind != DatetimeKind then "" else if r.format != "" then r.format else "ISO8601_DATE",
         if kind != DatetimeKind then "" else if r.timezone != "" then r.timezone else "Asia/Shanghai")
  }

  // ---------------------------------------------------------------- keys

  // `squash` folds the case of a key and removes its underscores and hyphens.
  function AliasOf(low: string): Option<string> {
    if low in {"amount", "buyer", "publishedat", "listtitle", "listpublishedat"} then None
    else if low in {"detailtitle", "articletitle", "noticetitle", "newstitle", "itemtitle", "posttitle", "pagetitle", "headline", "biaoti",
                    "subject", "name", "projectname", "projname"} then Some("title")
    else if low in {"detailpublishdate", "pubdate", "releasetime", "postdate", "posttime", "pubtime", "publishdate", "publishedat",
                    "publish_date", "release_date", "shijian", "date", "time"} then Some("publishDate")
    else if low in {"detailcontent", "articlecontent", "body", "articlebody", "maintext", "detailtext", "detailbody", "zhengwen", "neirong",
                    "text", "description", "contenthtml"} then Some("content")
    else if low in {"buyer", "purchaser", "agency", "agencyname", "buyername", "org", "organization", "caigouren"} then Some("purchaser")
    else if low in {"amount", "budget", "price", "totalbudget", "money", "yusuan", "jine"} then Some("budget")
    else if low in {"detail_url", "detailurl", "link", "url", "href", "targeturl"} then Some("detailUrl")
    else None
  }

  function Canonical(key: string, squash: string -> string): string {
    var clean := Strip(key);
    var alias := AliasOf(squash(clean));
    if alias.Some? then alias.value else clean
  }

  function Canonicals(squash: string -> string): string -> string {
    key => Canonical(key, squash)
  }

  // How folding acts on the six canonical names.
  predicate Folds(squash: string -> string) {
    && squash("title") == "title" && squash("publishDate") == "publishdate" && squash("content") == "content"
    && squash("purchaser") == "purchaser" && squash("budget") == "budget" && squash("detailUrl") == "detailurl"
  }

  function Keys(fields: seq<Field>): set<string> {
    set f | f in fields :: f.key
  }

  // Assignment to a dictionary: a known key keeps its place.
  function Put(fields: seq<Field>, key: string, rule: Rule): seq<Field> {
    if fields == [] then [Field(key, rule)]
    else if fields[0].key == key then [Field(key, rule)] + fields[1..]
    else [fields[0]] + Put(fields[1..], key, rule)
  }

  function NormalFields(raw: seq<Field>, responseType: Format, canonical: string -> string): seq<Field> {
    if raw == [] then []
    else
      var last := raw[|raw| - 1];
      var key := canonical(last.key);
      Put(NormalFields(raw[..|raw| - 1], responseType, canonical), key, NormalRule(key, last.rule, responseType))
  }

  // The hand-off column: without one, the first url, link or href column takes its name.
  function Adopt(fields: seq<Field>, lower: string -> string): Option<seq<Field>> {
    if fields == [] then None
    else if lower(fields[0].key) in {"url", "link", "href"} then Some(fields[1..] + [Field("detailUrl", fields[0].rule)])
    else
      var rest := Adopt(fields[1..], lower);
      if rest.Some? then Some([fields[0]] + rest.value) else None
  }

  // ---------------------------------------------------------------- pagination and plans

  const NO_PAGES := Pagination(NonePages, "", None, "", None, None, None)

  function Clamp(raw: Option<int>, default: int, low: int, high: int): int {
    Min(Max(if raw.Some? then raw.value else default, low), high)
  }

  function NormalPagination(p: Pagination, responseType: Format): Result<Pagination, string> {
    match p.paging
    case OtherPaging => Err("UNSUPPORTED_PAGINATION")
    case NoPaging => Ok(NO_PAGES)
    case NonePages => Ok(NO_PAGES)
    case PageNumber => Ok(PagesByQuery(p))
    case PageQuery => Ok(PagesByQuery(p))
    case _ => Ok(Pagination(NextLink, Selector(p.selector, responseType), Some(Clamp(p.maxPages, 20, 1, 1000)), "", None, None, None))
  }

  function PagesByQuery(p: Pagination): Pagination {
    Pagination(PageQuery, "", Some(Clamp(p.maxPages, 20, 1, 1000)), Prefix(if p.parameter != "" then p.parameter else "page", 128),
               Some(Max(if p.start.Some? then p.start.value else 1, 0)), Some(Clamp(p.step, 1, 1, 1000)),
               Some(if p.stopWhenEmpty.Some? then p.stopWhenEmpty.value else true))
  }

  function HandOff(mode: Mode, fields: seq<Field>, lower: string -> string): Option<seq<Field>> {
    if mode == ListDetail && "detailUrl" !in Keys(fields) then Adopt(fields, lower) else Some(fields)
  }

  function ItemsSelector(raw: Plan, responseType: Format): string {
    Selector(if raw.itemsSelector != "" then raw.itemsSelector else if responseType == Json then "$" else "body", responseType)
  }

  function FormatOf(raw: Plan): Format {
    if raw.responseType == NoFormat then Html else raw.responseType
  }

  function Normalize(raw: Plan, squash: string -> string, lower: string -> string): Result<Plan, string> {
    var responseType := FormatOf(raw);
    if raw.mode == OtherMode then Err("mode")
    else if responseType == OtherFormat then Err("list.responseType")
    else if raw.fields == [] then Err("list.fields")
    else
      var handed := HandOff(raw.mode, NormalFields(raw.fields, responseType, Canonicals(squash)), lower);
      var pages := NormalPagination(raw.pagination, responseType);
      if handed.None? then Err("list.fields.detailUrl")
      else if pages.Err? then Err(pages.error)
      else
        Ok(Plan(raw.mode, if raw.transport == OtherTransport then Browser else raw.transport, responseType,
                ItemsSelector(raw, responseType), handed.value, if raw.mode == Single then NO_PAGES else pages.value))
  }

  // ---------------------------------------------------------------- the loops of the source

  method CollectTransforms(raw: seq<Transform>) returns (normalized: seq<Transform>)
    ensures normalized == Collect(raw)
  {
    hide NormalTransform;
    normalized := [];
    for i := 0 to |raw|
      invariant normalized == Collect(raw[..i])
    {
      assert raw[..i + 1][..i] == raw[..i];
      var next := NormalTransform(raw[i]);
      if next.Some? && next.value !in normalized { normalized := normalized + [next.value]; }
    }
    assert raw[..|raw|] == raw;
  }

  method CollectFields(raw: seq<Field>, responseType: Format, canonical: string -> string) returns (fields: seq<Field>)
    ensures fields == NormalFields(raw, responseType, canonical)
  {
    hide NormalRule, Put;
    fields := [];
    for i := 0 to |raw|
      invariant fields == NormalFields(raw[..i], responseType, canonical)
    {
      assert raw[..i + 1][..i] == raw[..i];
      var key := canonical(raw[i].key);
      fields := Put(fields, key, NormalRule(key, raw[i].rule, responseType));
    }
    assert raw[..|raw|] == raw;
  }

  // ---------------------------------------------------------------- selectors, twice

  lemma {:induction false} ReplaceShrinks(s: string)
    ensures |Replace(s)| <= |s|
    ensures Contains(s, OWN) ==> |Replace(s)| < |s|
    ensures !Contains(s, OWN) ==> Replace(s) == s
    decreases |s|
  {
    if s != "" {
      if OWN <= s { ReplaceShrinks(s[13..]); } else { ReplaceShrinks(s[1..]); }
    }
  }

  lemma ReplaceStep(s: string)
    requires s != ""
    ensures !(OWN <= s) ==> Replace(s) == [s[0]] + Replace(s[1..])
    ensures OWN <= s ==> Replace(s) == CONTAINS + Replace(s[13..]) && s[0] == ':' && s[12] == '('
  {
    if OWN <= s { assert s[0] == OWN[0] && s[12] == OWN[12]; }
  }

  lemma OpensWithColon(tail: string)
    ensures var t := CONTAINS + tail; t != "" && t[0] == ':' && t[|t| - 1] == if tail == "" then '(' else tail[|tail| - 1]
  {
  }

  lemma {:induction false} ReplaceKeepsEnds(s: string)
    requires s != ""
    ensures Replace(s) != "" && Replace(s)[0] == s[0] && Replace(s)[|Replace(s)| - 1] == s[|s| - 1]
    decreases |s|
  {
    hide Replace;
    ReplaceStep(s);
    if OWN <= s {
      OpensWithColon(Replace(s[13..]));
      if s[13..] != "" { ReplaceKeepsEnds(s[13..]); } else { EmptyReplace(); }
    } else if s[1..] != "" {
      ReplaceKeepsEnds(s[1..]);
    } else {
      EmptyReplace();
    }
  }

  lemma EmptyReplace()
    ensures Replace("") == ""
  {
  }

  // Up to the first colon of the result nothing was replaced.
  lemma {:induction false} ReplaceKeepsWord(s: string, n: nat)
    requires n <= |Replace(s)| && forall i :: 0 <= i < n ==> Replace(s)[i] != ':'
    ensures n <= |s| && s[..n] == Replace(s)[..n]
    decreases n
  {
    if n > 0 {
      assert CONTAINS[0] == ':' && Replace(s)[0] != ':';
      assert !(OWN <= s);
      assert Replace(s)[1..] == Replace(s[1..]);
      assert forall i :: 0 <= i < n - 1 ==> Replace(s[1..])[i] == Replace(s)[i + 1];
      ReplaceKeepsWord(s[1..], n - 1);
      assert Replace(s)[..n] == [s[0]] + Replace(s[1..])[..n - 1] && s[..n] == [s[0]] + s[1..][..n - 1];
    }
  }

  // One pass leaves no occurrence behind.
  lemma {:induction false} ReplaceCleans(s: string)
    ensures !Contains(Replace(s), OWN)
    decreases |s|
  {
    if s != "" {
      if OWN <= s {
        ReplaceCleans(s[13..]);
        ContainsBehind(CONTAINS, Replace(s[13..]));
      } else {
        ReplaceCleans(s[1..]);
        assert Replace(s)[1..] == Replace(s[1..]);
        HeadClean(s);
      }
    }
  }

  lemma OwnWord()
    ensures |OWN_WORD| == 12 && |OWN| == 13 && OWN == ":" + OWN_WORD && forall i :: 0 <= i < 12 ==> OWN_WORD[i] != ':'
  {
  }

  // A pattern that opens with a colon and has no other can only start where it stood before.
  lemma PatternStood(s: string, pattern: string, word: string)
    requires s != "" && pattern == [':'] + word && (forall i :: 0 <= i < |word| ==> word[i] != ':')
    requires pattern <= [s[0]] + Replace(s[1..])
    ensures pattern <= s
  {
    hide Replace;
    var rest := Replace(s[1..]);
    assert ([s[0]] + rest)[0] == pattern[0];
    forall i | 0 <= i < |word| ensures rest[i] == word[i] { assert ([s[0]] + rest)[i + 1] == pattern[i + 1]; }
    ReplaceKeepsWord(s[1..], |word|);
    forall i | 0 <= i < |pattern| ensures s[i] == pattern[i] {
      if i > 0 { assert s[i] == s[1..][..|word|][i - 1] == rest[..|word|][i - 1]; }
    }
  }

  lemma HeadClean(s: string)
    requires s != "" && !(OWN <= s)
    ensures !(OWN <= Replace(s))
  {
    hide Replace;
    ReplaceStep(s);
    OwnWord();
    if OWN <= Replace(s) { PatternStood(s, OWN, OWN_WORD); }
  }

  // ":contains(" in front of a clean text adds no occurrence.
  lemma ContainsBehind(head: string, tail: string)
    requires head == CONTAINS && !Contains(tail, OWN)
    ensures !Contains(head + tail, OWN)
  {
    assert !(OWN <= head + tail) by { assert (head + tail)[9] == '(' && OWN[9] == 'O'; }
    assert (head + tail)[1..] == "contains(" + tail;
    NoColonWord("contains(", tail);
  }

  // A word without colons adds no occurrence either.
  lemma {:induction false} NoColonWord(word: string, tail: string)
    requires forall i :: 0 <= i < |word| ==> word[i] != ':'
    ensures Contains(word + tail, OWN) <==> Contains(tail, OWN)
  {
    if word == "" {
      assert word + tail == tail;
    } else {
      assert (word + tail)[0] != OWN[0];
      assert (word + tail)[1..] == word[1..] + tail;
      NoColonWord(word[1..], tail);
    }
  }

  // Behind "css:" or "jsonpath:" only a text that starts with containsOwn( completes an occurrence.
  lemma PrefixCompletes(word: string, tail: string)
    requires forall i :: 0 <= i < |word| ==> word[i] != ':'
    ensures Contains(word + ":" + tail, OWN) <==> OWN_WORD <= tail || Contains(tail, OWN)
  {
    assert word + ":" + tail == word + (":" + tail);
    NoColonWord(word, ":" + tail);
    assert (":" + tail)[1..] == tail;
    assert OWN == ":" + OWN_WORD;
    assert OWN <= ":" + tail <==> OWN_WORD <= tail by {
      if OWN_WORD <= tail { assert (":" + tail)[..13] == ":" + tail[..12]; }
      if OWN <= ":" + tail { assert tail[..12] == (":" + tail)[1..13] == OWN[1..13]; }
    }
  }

  lemma TrimReplace(s: string)
    requires Trim(s)
    ensures Trim(Replace(s))
  {
    if s != "" { ReplaceKeepsEnds(s); }
  }

  lemma {:induction false} ReplaceKeepsPrefix(word: string, tail: string)
    requires forall i :: 0 <= i < |word| ==> word[i] != ':'
    ensures word + ":" <= Replace(word + ":" + tail)
  {
    var s := word + ":" + tail;
    if word == "" {
      assert s == ":" + tail;
      ReplaceKeepsEnds(s);
      assert Replace(s)[..1] == ":";
    } else {
      assert s[0] == word[0] && s[1..] == word[1..] + ":" + tail;
      assert !(OWN <= s) by { assert s[0] != OWN[0]; }
      ReplaceKeepsPrefix(word[1..], tail);
      var rest := Replace(s[1..]);
      assert Replace(s)[..|word| + 1] == [s[0]] + rest[..|word|] == word + ":";
    }
  }

  lemma PrefixedReplace(s: string)
    requires Prefixed(s)
    ensures Prefixed(Replace(s))
  {
    if "css:" <= s {
      assert "css" + ":" == "css:" && s == "css" + ":" + s[4..];
      ReplaceKeepsPrefix("css", s[4..]);
    } else {
      assert "jsonpath" + ":" == "jsonpath:" && s == "jsonpath" + ":" + s[9..];
      ReplaceKeepsPrefix("jsonpath", s[9..]);
    }
  }

  // Every normalized selector is trimmed and prefixed, and it holds an occurrence exactly when the
  // prefix completed one: when the bare selector began with containsOwn(.
  lemma SelectorShape(raw: string, responseType: Format)
    ensures var s, bare := Selector(raw, responseType), Replace(Strip(raw));
            && Trim(s) && Prefixed(s) && s != ""
            && (Contains(s, OWN) <==> !Prefixed(bare) && OWN_WORD <= bare)
  {
    hide Strip, Replace, Contains, Trim, Prefixed;
    var bare := Replace(Strip(raw));
    StripTrims(raw);
    TrimReplace(Strip(raw));
    ReplaceCleans(Strip(raw));
    BehindCss(bare);
    BehindJsonpath(bare);
    if Prefixed(bare) { NotEmpty(bare); }
  }

  lemma BehindCss(bare: string)
    requires Trim(bare) && !Contains(bare, OWN)
    ensures Trim("css:" + bare) && Prefixed("css:" + bare) && "css:" + bare != "" && (Contains("css:" + bare, OWN) <==> OWN_WORD <= bare)
  {
    hide Contains;
    assert "css" + ":" == "css:";
    assert ("css:" + bare)[..4] == "css:";
    PrefixCompletes("css", bare);
  }

  lemma BehindJsonpath(bare: string)
    requires Trim(bare) && !Contains(bare, OWN)
    ensures Trim("jsonpath:" + bare) && Prefixed("jsonpath:" + bare) && "jsonpath:" + bare != "" && (Contains("jsonpath:" + bare, OWN) <==> OWN_WORD <= bare)
  {
    hide Contains;
    assert "jsonpath" + ":" == "jsonpath:";
    assert ("jsonpath:" + bare)[..9] == "jsonpath:";
    PrefixCompletes("jsonpath", bare);
  }

  lemma NotEmpty(s: string)
    requires Prefixed(s)
    ensures s != ""
  {
  }

  // A normalized selector is kept by a second pass exactly when no ":containsOwn(" is left in it.
  lemma SelectorTwice(s: string, responseType: Format)
    requires Trim(s) && Prefixed(s)
    ensures Selector(s, responseType) == Replace(s) && (Selector(s, responseType) == s <==> !Contains(s, OWN))
    ensures !Contains(Selector(s, responseType), OWN)
  {
    StripTrims(s);
    PrefixedReplace(s);
    ReplaceShrinks(s);
    ReplaceCleans(s);
  }

  // ---------------------------------------------------------------- accessors

  lemma {:induction false} AccessorAddsNone(s: string, accessor: string)
    requires accessor != "" && accessor[0] == ':' && !Contains(accessor, OWN)
    ensures Contains(s + accessor, OWN) <==> Contains(s, OWN)
  {
    if s == "" {
      assert s + accessor == accessor;
    } else {
      AccessorAddsNone(s[1..], accessor);
      assert (s + accessor)[1..] == s[1..] + accessor;
      assert OWN <= s + accessor <==> OWN <= s by {
        assert (s + accessor)[|s|] == ':';
        if |s| >= 13 { assert (s + accessor)[..13] == s[..13]; }
      }
    }
  }

  lemma AccessorClean(kind: Kind)
    ensures var a := Accessor(kind); a[0] == ':' && !Contains(a, OWN) && "::" <= a && !IsSpace(a[|a| - 1])
  {
    var a := Accessor(kind);
    ShortText(a);
  }

  lemma {:induction false} ShortText(s: string)
    requires |s| < 13
    ensures !Contains(s, OWN)
  {
    if s != "" { ShortText(s[1..]); }
  }

  lemma {:induction false} ContainsEnd(s: string, part: string)
    ensures forall tail :: part <= tail ==> Contains(s + tail, part)
  {
    forall tail | part <= tail ensures Contains(s + tail, part) {
      if s == "" {
        assert s + tail == tail;
      } else {
        ContainsEnd(s[1..], part);
        assert (s + tail)[1..] == s[1..] + tail;
      }
    }
  }

  lemma FieldSelectorShape(raw: string, responseType: Format, kind: Kind)
    ensures var s := FieldSelector(raw, responseType, kind);
            && Trim(s) && Prefixed(s)
            && (Contains(s, OWN) <==> Contains(Selector(raw, responseType), OWN))
            && !(responseType == Html && "css:" <= s && !Contains(s, "::"))
  {
    hide Selector, Contains, Prefixed;
    var s := Selector(raw, responseType);
    SelectorShape(raw, responseType);
    if responseType == Html && "css:" <= s && !Contains(s, "::") {
      AccessorClean(kind);
      AccessorAddsNone(s, Accessor(kind));
      ContainsEnd(s, "::");
      Extended(s, Accessor(kind));
    }
  }

  lemma Extended(s: string, accessor: string)
    requires s != "" && Trim(s) && Prefixed(s) && accessor != "" && !IsSpace(accessor[|accessor| - 1])
    ensures Trim(s + accessor) && Prefixed(s + accessor)
  {
    if "css:" <= s { assert (s + accessor)[..4] == s[..4]; } else { assert (s + accessor)[..9] == s[..9]; }
  }

  lemma FieldSelectorTwice(raw: string, responseType: Format, kind: Kind)
    ensures var s := FieldSelector(raw, responseType, kind);
            FieldSelector(s, responseType, kind) == s <==> !Contains(s, OWN)
  {
    hide Selector, Contains, Prefixed;
    var s := FieldSelector(raw, responseType, kind);
    FieldSelectorShape(raw, responseType, kind);
    SelectorTwice(s, responseType);
    FieldSelectorShape(s, responseType, kind);
  }

  // ---------------------------------------------------------------- transforms

  predicate SettledTransform(t: Transform) {
    t.Regex? ==> Trim(t.pattern)
  }

  lemma {:induction false} StripShortens(s: string)
    ensures |Strip(s)| <= |s|
  {
    StripLeftShortens(s);
    StripRightShortens(StripLeft(s));
  }

  lemma {:induction false} StripLeftShortens(s: string)
    ensures |StripLeft(s)| <= |s|
  {
    if s != "" && IsSpace(s[0]) { StripLeftShortens(s[1..]); }
  }

  lemma {:induction false} StripRightShortens(s: string)
    ensures |StripRight(s)| <= |s|
  {
    if s != "" && IsSpace(s[|s| - 1]) { StripRightShortens(s[..|s| - 1]); }
  }

  // Stripping and cutting to a length is stable exactly when the cut left no white space at the end.
  lemma CutTwice(raw: string, n: nat)
    requires n > 0
    ensures var c := Prefix(Strip(raw), n); (Prefix(Strip(c), n) == c <==> Trim(c)) && (c == "" <==> Strip(raw) == "") && |c| <= n
    ensures var c := Prefix(Strip(raw), n); c != "" ==> !IsSpace(c[0]) && Strip(c) != ""
  {
    var c := Prefix(Strip(raw), n);
    StripTrims(raw);
    StripTrims(c);
    StripShortens(c);
    if c != "" {
      assert c[0] == Strip(raw)[0];
      StartKept(c);
    }
  }

  lemma {:induction false} StartKept(s: string)
    requires s != "" && !IsSpace(s[0])
    ensures Strip(s) != ""
  {
    RightKeepsFirst(s);
  }

  lemma {:induction false} RightKeepsFirst(s: string)
    requires s != "" && !IsSpace(s[0])
    ensures StripRight(s) != ""
  {
    if IsSpace(s[|s| - 1]) { RightKeepsFirst(s[..|s| - 1]); }
  }

  lemma TransformTwice(t: Transform)
    requires NormalTransform(t).Some?
    ensures NormalTransform(NormalTransform(t).value) == NormalTransform(t) <==> SettledTransform(NormalTransform(t).value)
  {
    match t
    case Regex(pattern, group) => CutTwice(pattern, 512);
    case Plain(_) =>
    case UrlPath(_) =>
    case Unknown =>
  }

  predicate FixedByTransform(t: Transform) {
    NormalTransform(t) == Some(t)
  }

  lemma {:induction false} CollectShape(ts: seq<Transform>)
    ensures NoRepeats(Collect(ts))
    ensures forall u :: u in Collect(ts) ==> (FixedByTransform(u) <==> SettledTransform(u))
  {
    hide NormalTransform, SettledTransform;
    if ts != [] {
      CollectShape(ts[..|ts| - 1]);
      var next := NormalTransform(ts[|ts| - 1]);
      if next.Some? { TransformTwice(ts[|ts| - 1]); }
    }
  }

  lemma {:induction false} CollectTwice(us: seq<Transform>)
    requires NoRepeats(us)
    ensures |Collect(us)| <= |us|
    ensures Collect(us) == us <==> forall i :: 0 <= i < |us| ==> FixedByTransform(us[i])
  {
    hide NormalTransform;
    if us != [] {
      var front, last := us[..|us| - 1], us[|us| - 1];
      CollectTwice(front);
      assert us == front + [last];
      CollectLast(us, Collect(front));
    }
  }

  lemma CollectLast(us: seq<Transform>, before: seq<Transform>)
    requires us != [] && NoRepeats(us) && before == Collect(us[..|us| - 1]) && |before| <= |us| - 1
    ensures |Collect(us)| <= |us|
    ensures Collect(us) == us <==> before == us[..|us| - 1] && FixedByTransform(us[|us| - 1])
  {
    hide NormalTransform;
    var front, last, next := us[..|us| - 1], us[|us| - 1], NormalTransform(us[|us| - 1]);
    assert us == front + [last] && last !in front;
    if Collect(us) == us {
      assert next.Some? && Collect(us) == before + [next.value];
      assert Collect(us)[..|us| - 1] == before && Collect(us)[|us| - 1] == next.value;
    }
  }

  lemma TransformsTwice(raw: Option<seq<Transform>>, kind: Kind)
    ensures var us := Transforms(raw, kind);
            Transforms(Some(us), kind) == us <==> forall u :: u in us ==> SettledTransform(u)
  {
    hide Collect, NormalTransform, SettledTransform;
    var given := if raw.Some? then raw.value else if kind == UrlKind then [Plain(TrimText), Plain(AbsoluteUrl)] else [Plain(TrimText)];
    var us := Transforms(raw, kind);
    CollectShape(given);
    assert FixedByTransform(Plain(AbsoluteUrl)) && SettledTransform(Plain(AbsoluteUrl)) by { UrlIsFixed(); }
    assert NoRepeats(us);
    CollectTwice(us);
    if Transforms(Some(us), kind) == us && Collect(us) != us {
      assert Collect(us) + [Plain(AbsoluteUrl)] == us && Plain(AbsoluteUrl) !in Collect(us);
      UrlCollected(us);
    }
  }

  lemma UrlIsFixed()
    ensures FixedByTransform(Plain(AbsoluteUrl)) && SettledTransform(Plain(AbsoluteUrl))
  {
  }

  lemma {:induction false} UrlCollected(us: seq<Transform>)
    ensures Plain(AbsoluteUrl) in us ==> Plain(AbsoluteUrl) in Collect(us)
  {
    if us != [] {
      UrlCollected(us[..|us| - 1]);
      assert us == us[..|us| - 1] + [us[|us| - 1]];
      UrlIsFixed();
    }
  }

  // ---------------------------------------------------------------- rules

  predicate SettledRule(r: Rule) {
    !Contains(r.selector, OWN) && Trim(r.caption) && r.transforms.Some? && forall u :: u in r.transforms.value ==> SettledTransform(u)
  }

  lemma KindTwice(key: string, raw: Kind, other: string)
    ensures var v := KindOf(key, raw); KindOf(other, v) == v
  {
  }

  // A normalized rule is kept by a second pass, under whatever key, exactly when it is settled.
  lemma RuleTwice(key: string, r: Rule, responseType: Format, other: string)
    ensures var n := NormalRule(key, r, responseType);
            NormalRule(other, n, responseType) == n <==> SettledRule(n)
  {
    hide FieldSelector, KindOf, Transforms, Contains, Strip, Trim, SettledTransform;
    var n := NormalRule(key, r, responseType);
    KindTwice(key, r.kind, other);
    FieldSelectorTwice(r.selector, responseType, n.kind);
    TransformsTwice(r.transforms, n.kind);
    CutTwice(r.caption, 100);
  }

  // ---------------------------------------------------------------- fields

  ghost predicate IsNormal(r: Rule, responseType: Format) {
    exists key, raw :: r == NormalRule(key, raw, responseType)
  }

  predicate DistinctKeys(fields: seq<Field>) {
    forall i, j :: 0 <= i < j < |fields| ==> fields[i].key != fields[j].key
  }

  ghost predicate NormalList(fields: seq<Field>, responseType: Format, canonical: string -> string) {
    DistinctKeys(fields) && forall i :: 0 <= i < |fields| ==> canonical(fields[i].key) == fields[i].key && IsNormal(fields[i].rule, responseType)
  }

  // A way of naming keys that keeps its own names.
  ghost predicate Settles(canonical: string -> string) {
    (forall key :: canonical(canonical(key)) == canonical(key)) && canonical("detailUrl") == "detailUrl"
  }

  lemma CanonicalsSettle(squash: string -> string)
    requires Folds(squash)
    ensures Settles(Canonicals(squash))
  {
    hide Canonical, Folds;
    forall key ensures Canonicals(squash)(Canonicals(squash)(key)) == Canonicals(squash)(key) { CanonicalTwice(key, squash); }
    CanonicalTwice("", squash);
  }

  lemma CanonicalTwice(key: string, squash: string -> string)
    requires Folds(squash)
    ensures Canonical(Canonical(key, squash), squash) == Canonical(key, squash)
    ensures Canonical("detailUrl", squash) == "detailUrl"
  {
    hide Strip, AliasOf, Trim;
    StripTrims(key);
    StripTrims(Strip(key));
    AliasNames(squash(Strip(key)));
    forall name | name in {"title", "publishDate", "content", "purchaser", "budget", "detailUrl"} ensures Canonical(name, squash) == name {
      NameKept(name, squash);
    }
  }

  lemma AliasNames(low: string)
    ensures AliasOf(low).Some? ==> AliasOf(low).value in {"title", "publishDate", "content", "purchaser", "budget", "detailUrl"}
  {
  }

  lemma NameKept(name: string, squash: string -> string)
    requires Folds(squash) && name in {"title", "publishDate", "content", "purchaser", "budget", "detailUrl"}
    ensures Canonical(name, squash) == name
  {
    hide Strip, AliasOf, Trim;
    StripTrims(name);
    NamesTrimmed(name);
    OwnAliases();
  }

  lemma OwnAliases()
    ensures AliasOf("title") == None && AliasOf("content") == None && AliasOf("publishdate") == Some("publishDate")
    ensures AliasOf("purchaser") == Some("purchaser") && AliasOf("budget") == Some("budget") && AliasOf("detailurl") == Some("detailUrl")
  {
  }

  lemma NamesTrimmed(name: string)
    requires name in {"title", "publishDate", "content", "purchaser", "budget", "detailUrl"}
    ensures Trim(name)
  {
  }

  lemma {:induction false} PutShape(fields: seq<Field>, key: string, rule: Rule)
    requires DistinctKeys(fields)
    ensures var out := Put(fields, key, rule);
            && DistinctKeys(out) && (forall f :: f in out ==> f in fields || f == Field(key, rule))
            && ((forall i :: 0 <= i < |fields| ==> fields[i].key != key) ==> out == fields + [Field(key, rule)])
  {
    if fields != [] && fields[0].key != key {
      PutShape(fields[1..], key, rule);
      assert fields == [fields[0]] + fields[1..];
      var rest := Put(fields[1..], key, rule);
      forall j | 0 <= j < |rest| ensures rest[j].key != fields[0].key {
        assert rest[j] in rest;
        if rest[j] in fields[1..] { var k :| 0 <= k < |fields[1..]| && fields[1..][k] == rest[j]; assert fields[k + 1] == rest[j]; }
      }
    }
  }

  lemma {:induction false} FieldsShape(raw: seq<Field>, responseType: Format, canonical: string -> string)
    requires Settles(canonical)
    ensures NormalList(NormalFields(raw, responseType, canonical), responseType, canonical)
  {
    hide NormalRule;
    if raw != [] {
      var last := raw[|raw| - 1];
      var key := canonical(last.key);
      var before := NormalFields(raw[..|raw| - 1], responseType, canonical);
      FieldsShape(raw[..|raw| - 1], responseType, canonical);
      var rule := NormalRule(key, last.rule, responseType);
      PutShape(before, key, rule);
      var out := Put(before, key, rule);
      forall i | 0 <= i < |out| ensures canonical(out[i].key) == out[i].key && IsNormal(out[i].rule, responseType) {
        assert out[i] in out;
      }
    }
  }

  predicate SettledFields(fields: seq<Field>) {
    forall i :: 0 <= i < |fields| ==> SettledRule(fields[i].rule)
  }

  predicate SameKeyOrder(a: seq<Field>, b: seq<Field>) {
    |a| == |b| && forall i :: 0 <= i < |a| ==> a[i].key == b[i].key
  }

  // A key the dictionary does not hold yet goes to the end.
  lemma PutFresh(before: seq<Field>, fields: seq<Field>, rule: Rule)
    requires fields != [] && DistinctKeys(fields) && SameKeyOrder(before, fields[..|fields| - 1])
    ensures Put(before, fields[|fields| - 1].key, rule) == before + [Field(fields[|fields| - 1].key, rule)]
    ensures SameKeyOrder(before + [Field(fields[|fields| - 1].key, rule)], fields)
  {
    var last := fields[|fields| - 1];
    forall i | 0 <= i < |before| ensures before[i].key != last.key { assert before[i].key == fields[i].key; }
    forall i, j | 0 <= i < j < |before| ensures before[i].key != before[j].key { assert fields[i].key != fields[j].key; }
    PutShape(before, last.key, rule);
  }

  lemma NormalTwice(r: Rule, responseType: Format, key: string)
    requires IsNormal(r, responseType)
    ensures NormalRule(key, r, responseType) == r <==> SettledRule(r)
  {
    hide NormalRule, SettledRule;
    var first, raw :| r == NormalRule(first, raw, responseType);
    RuleTwice(first, raw, responseType, key);
  }

  lemma FrontNormal(fields: seq<Field>, responseType: Format, canonical: string -> string)
    requires fields != [] && NormalList(fields, responseType, canonical)
    ensures NormalList(fields[..|fields| - 1], responseType, canonical) && DistinctKeys(fields)
    ensures var last := fields[|fields| - 1]; canonical(last.key) == last.key && IsNormal(last.rule, responseType)
  {
    hide IsNormal;
  }

  lemma {:induction false} FieldsTwice(fields: seq<Field>, responseType: Format, canonical: string -> string)
    requires NormalList(fields, responseType, canonical)
    ensures SameKeyOrder(NormalFields(fields, responseType, canonical), fields)
    ensures NormalFields(fields, responseType, canonical) == fields <==> SettledFields(fields)
  {
    hide NormalRule, SettledRule, NormalList, DistinctKeys, Put, IsNormal, SameKeyOrder;
    if fields == [] {
      assert SameKeyOrder([], []) by { EmptyOrder(); }
    } else {
      var front, last := fields[..|fields| - 1], fields[|fields| - 1];
      FrontNormal(fields, responseType, canonical);
      FieldsTwice(front, responseType, canonical);
      var before, rule := NormalFields(front, responseType, canonical), NormalRule(last.key, last.rule, responseType);
      PutFresh(before, fields, rule);
      NormalTwice(last.rule, responseType, last.key);
      SettledLast(fields);
      assert fields == front + [last];
      var out := NormalFields(fields, responseType, canonical);
      assert out == before + [Field(last.key, rule)];
      if out == fields { assert out[..|out| - 1] == before && out[|out| - 1] == last; }
    }
  }

  lemma EmptyOrder()
    ensures SameKeyOrder([], [])
  {
  }

  lemma SettledLast(fields: seq<Field>)
    requires fields != []
    ensures SettledFields(fields) <==> SettledFields(fields[..|fields| - 1]) && SettledRule(fields[|fields| - 1].rule)
  {
    hide SettledRule;
  }

  // Adopting a column moves it to the end under its new name.
  lemma {:induction false} AdoptShape(fields: seq<Field>, responseType: Format, canonical: string -> string, lower: string -> string)
    requires NormalList(fields, responseType, canonical) && Settles(canonical) && (forall i :: 0 <= i < |fields| ==> fields[i].key != "detailUrl")
    ensures Adopt(fields, lower).Some? ==>
              var out := Adopt(fields, lower).value;
              && out != [] && out[|out| - 1].key == "detailUrl" && NormalList(out, responseType, canonical)
              && forall i :: 0 <= i < |out| - 1 ==> out[i] in fields
  {
    hide NormalRule, IsNormal, NormalList;
    if Adopt(fields, lower).Some? {
      var out := Adopt(fields, lower).value;
      HeadNormal(fields, responseType, canonical);
      if lower(fields[0].key) in {"url", "link", "href"} {
        assert forall i :: 0 <= i < |out| - 1 ==> out[i] == fields[i + 1];
        RenamedNormal(fields, responseType, canonical);
      } else {
        AdoptShape(fields[1..], responseType, canonical, lower);
        var rest := Adopt(fields[1..], lower).value;
        assert out == [fields[0]] + rest;
        AheadOf(fields, rest);
        ConsNormal(fields[0], rest, responseType, canonical);
      }
    }
  }

  lemma HeadNormal(fields: seq<Field>, responseType: Format, canonical: string -> string)
    requires fields != [] && NormalList(fields, responseType, canonical)
    ensures DistinctKeys(fields) && NormalList(fields[1..], responseType, canonical)
    ensures canonical(fields[0].key) == fields[0].key && IsNormal(fields[0].rule, responseType)
  {
    hide IsNormal;
  }

  lemma RenamedNormal(fields: seq<Field>, responseType: Format, canonical: string -> string)
    requires fields != [] && NormalList(fields, responseType, canonical) && (forall i :: 0 <= i < |fields| ==> fields[i].key != "detailUrl")
    requires canonical("detailUrl") == "detailUrl"
    ensures NormalList(fields[1..] + [Field("detailUrl", fields[0].rule)], responseType, canonical)
  {
    hide IsNormal;
  }

  lemma ConsNormal(f: Field, rest: seq<Field>, responseType: Format, canonical: string -> string)
    requires NormalList(rest, responseType, canonical) && canonical(f.key) == f.key && IsNormal(f.rule, responseType)
    requires forall j :: 0 <= j < |rest| ==> rest[j].key != f.key
    ensures NormalList([f] + rest, responseType, canonical)
  {
    hide IsNormal;
  }

  lemma AheadOf(fields: seq<Field>, rest: seq<Field>)
    requires fields != [] && DistinctKeys(fields) && forall j :: 0 <= j < |rest| - 1 ==> rest[j] in fields[1..]
    ensures forall j :: 0 <= j < |rest| - 1 ==> rest[j].key != fields[0].key && rest[j] in fields
  {
    forall j | 0 <= j < |rest| - 1 ensures rest[j].key != fields[0].key && rest[j] in fields {
      var k :| 0 <= k < |fields[1..]| && fields[1..][k] == rest[j];
      assert fields[k + 1] == rest[j];
    }
  }

  // ---------------------------------------------------------------- the fixed point

  lemma PaginationTwice(p: Pagination, responseType: Format)
    requires NormalPagination(p, responseType).Ok?
    ensures var n := NormalPagination(p, responseType).value;
            NormalPagination(n, responseType) == Ok(n) <==> !Contains(n.selector, OWN)
    ensures NormalPagination(NormalPagination(p, responseType).value, responseType).Ok?
  {
    hide Selector, Contains, Prefixed;
    var n := NormalPagination(p, responseType).value;
    SelectorShape(p.selector, responseType);
    SelectorTwice(Selector(p.selector, responseType), responseType);
    ShortText("");
    if n.paging == PageQuery { QueryTwice(p); }
  }

  lemma QueryTwice(p: Pagination)
    ensures PagesByQuery(PagesByQuery(p)) == PagesByQuery(p)
  {
  }

  predicate Settled(n: Plan) {
    !Contains(n.itemsSelector, OWN) && SettledFields(n.fields) && !Contains(n.pagination.selector, OWN)
  }

  lemma HandOffShape(mode: Mode, fields: seq<Field>, responseType: Format, canonical: string -> string, lower: string -> string)
    requires NormalList(fields, responseType, canonical) && Settles(canonical) && HandOff(mode, fields, lower).Some?
    ensures var out := HandOff(mode, fields, lower).value;
            NormalList(out, responseType, canonical) && (mode == ListDetail ==> "detailUrl" in Keys(out)) && (fields != [] ==> out != [])
  {
    hide NormalList, Adopt;
    if mode == ListDetail && "detailUrl" !in Keys(fields) {
      forall i | 0 <= i < |fields| ensures fields[i].key != "detailUrl" { assert fields[i] in fields; }
      AdoptShape(fields, responseType, canonical, lower);
      var out := Adopt(fields, lower).value;
      assert out[|out| - 1] in out;
    }
  }

  lemma SameKeys(a: seq<Field>, b: seq<Field>)
    requires SameKeyOrder(a, b)
    ensures Keys(a) <= Keys(b) && Keys(b) <= Keys(a)
  {
    forall k | k in Keys(a) ensures k in Keys(b) {
      var i :| 0 <= i < |a| && a[i].key == k;
      assert b[i] in b;
    }
    forall k | k in Keys(b) ensures k in Keys(a) {
      var i :| 0 <= i < |b| && b[i].key == k;
      assert a[i] in a;
    }
  }

  // Renormalizing an accepted plan changes nothing exactly when no selector of it still holds
  // ":containsOwn(" and no label or pattern was cut behind white space.
  lemma DiscoveryFixedPoint(raw: Plan, squash: string -> string, lower: string -> string)
    requires Folds(squash)
    ensures var first := Normalize(raw, squash, lower);
            first.Ok? ==> (Normalize(first.value, squash, lower) == first <==> Settled(first.value))
  {
    hide Selector, Contains, Prefixed, NormalFields, NormalPagination, HandOff, SettledFields, ItemsSelector, NormalList, Keys, SameKeyOrder;
    hide Canonicals, Settles, Folds;
    if Normalize(raw, squash, lower).Ok? {
      var responseType, canonical := FormatOf(raw), Canonicals(squash);
      var n := Normalize(raw, squash, lower).value;
      var fields := NormalFields(raw.fields, responseType, canonical);
      CanonicalsSettle(squash);
      FieldsShape(raw.fields, responseType, canonical);
      HandOffShape(raw.mode, fields, responseType, canonical, lower);
      FieldsTwice(n.fields, responseType, canonical);
      var again := NormalFields(n.fields, responseType, canonical);
      SameKeys(again, n.fields);
      HandOffKept(n.mode, again, lower);
      PaginationSettled(raw, n, responseType);
      ItemsTwice(raw, n, responseType);
      FieldsNonempty(raw.fields, responseType, canonical);
      assert Normalize(n, squash, lower).Ok? && Normalize(n, squash, lower).value.fields == again;
    }
  }

  lemma ItemsTwice(raw: Plan, n: Plan, responseType: Format)
    requires n.itemsSelector == ItemsSelector(raw, responseType)
    ensures ItemsSelector(n, responseType) == n.itemsSelector <==> !Contains(n.itemsSelector, OWN)
  {
    hide Selector, Contains, Prefixed;
    SelectorShape(if raw.itemsSelector != "" then raw.itemsSelector else if responseType == Json then "$" else "body", responseType);
    SelectorTwice(n.itemsSelector, responseType);
  }

  lemma HandOffKept(mode: Mode, fields: seq<Field>, lower: string -> string)
    requires mode == ListDetail ==> "detailUrl" in Keys(fields)
    ensures HandOff(mode, fields, lower) == Some(fields)
  {
  }

  lemma PaginationSettled(raw: Plan, n: Plan, responseType: Format)
    requires NormalPagination(raw.pagination, responseType).Ok?
    requires n.pagination == if raw.mode == Single then NO_PAGES else NormalPagination(raw.pagination, responseType).value
    ensures NormalPagination(n.pagination, responseType).Ok?
    ensures NormalPagination(n.pagination, responseType) == Ok(n.pagination) <==> !Contains(n.pagination.selector, OWN)
    ensures raw.mode == Single ==> !Contains(n.pagination.selector, OWN)
  {
    PaginationTwice(raw.pagination, responseType);
    ShortText("");
  }

  lemma FieldsNonempty(raw: seq<Field>, responseType: Format, canonical: string -> string)
    requires raw != []
    ensures NormalFields(raw, responseType, canonical) != []
  {
    hide NormalRule;
  }

  // ---------------------------------------------------------------- the dialect

  predicate TransformInDialect(t: Transform) {
    match t
    case Plain(name) => name in {TrimText, CollapseSpace, Lowercase, Uppercase, AbsoluteUrl, StripHtml}
    case Regex(pattern, group) => 0 < |pattern| <= 512 && 0 <= group <= 8
    case UrlPath(_) => true
    case Unknown => false
  }

  // What the runtime accepts of a field rule.
  predicate RuleInDialect(r: Rule, responseType: Format) {
    && Trim(r.selector) && Prefixed(r.selector)
    && (responseType == Html && "css:" <= r.selector ==> Contains(r.selector, "::"))
    && r.kind in {StringKind, IntegerKind, NumberKind, BooleanKind, DatetimeKind, UrlKind, HtmlKind, JsonKind}
    && r.required.Some? && r.onError in {FailRun, RejectItem, Null} && (r.required.value ==> r.onError != Null)
    && r.policy in {ErrorPolicy, FirstPolicy} && |r.caption| <= 100
    && (r.kind == DatetimeKind <==> r.format != "") && (r.kind == DatetimeKind <==> r.timezone != "")
    && r.transforms.Some? && NoRepeats(r.transforms.value) && (forall t :: t in r.transforms.value ==> TransformInDialect(t))
    && (r.kind == UrlKind ==> Plain(AbsoluteUrl) in r.transforms.value)
  }

  predicate PagesInDialect(p: Pagination) {
    match p.paging
    case NonePages => p == NO_PAGES
    case NextLink => Prefixed(p.selector) && p.maxPages.Some? && 1 <= p.maxPages.value <= 1000
    case PageQuery =>
      && 0 < |p.parameter| <= 128 && p.maxPages.Some? && 1 <= p.maxPages.value <= 1000
      && p.start.Some? && p.start.value >= 0 && p.step.Some? && 1 <= p.step.value <= 1000 && p.stopWhenEmpty.Some?
    case _ => false
  }

  predicate PlanInDialect(n: Plan) {
    && n.mode in {Single, ListDetail} && n.transport in {Http, Browser} && n.responseType in {Html, Json}
    && Prefixed(n.itemsSelector) && n.fields != [] && DistinctKeys(n.fields)
    && (n.mode == ListDetail ==> "detailUrl" in Keys(n.fields)) && (n.mode == Single ==> n.pagination == NO_PAGES)
    && PagesInDialect(n.pagination)
    && forall i :: 0 <= i < |n.fields| ==> RuleInDialect(n.fields[i].rule, n.responseType)
  }

  lemma {:induction false} CollectedInDialect(ts: seq<Transform>)
    ensures forall u :: u in Collect(ts) ==> TransformInDialect(u)
  {
    if ts != [] { CollectedInDialect(ts[..|ts| - 1]); }
  }

  lemma NormalRuleInDialect(key: string, r: Rule, responseType: Format)
    ensures RuleInDialect(NormalRule(key, r, responseType), responseType)
  {
    hide FieldSelector, Contains, Prefixed, Strip, Trim, Collect, TransformInDialect;
    var n := NormalRule(key, r, responseType);
    FieldSelectorShape(r.selector, responseType, n.kind);
    CutTwice(r.caption, 100);
    TransformsInDialect(r.transforms, n.kind);
  }

  lemma IsNormalInDialect(r: Rule, responseType: Format)
    requires IsNormal(r, responseType)
    ensures RuleInDialect(r, responseType)
  {
    hide NormalRule, RuleInDialect;
    var key, raw :| r == NormalRule(key, raw, responseType);
    NormalRuleInDialect(key, raw, responseType);
  }

  lemma TransformsInDialect(raw: Option<seq<Transform>>, kind: Kind)
    ensures var us := Transforms(raw, kind);
            NoRepeats(us) && (forall t :: t in us ==> TransformInDialect(t)) && (kind == UrlKind ==> Plain(AbsoluteUrl) in us)
  {
    hide Collect, SettledTransform;
    var given := if raw.Some? then raw.value else if kind == UrlKind then [Plain(TrimText), Plain(AbsoluteUrl)] else [Plain(TrimText)];
    CollectShape(given);
    CollectedInDialect(given);
  }

  lemma NormalPagesInDialect(p: Pagination, responseType: Format)
    ensures NormalPagination(p, responseType).Ok? ==> PagesInDialect(NormalPagination(p, responseType).value)
  {
    hide Selector, Prefixed, Contains;
    SelectorShape(p.selector, responseType);
  }

  // Whatever the model answered, an accepted plan stays within the dialect the runtime executes.
  lemma NormalizedInDialect(raw: Plan, squash: string -> string, lower: string -> string)
    requires Folds(squash)
    ensures Normalize(raw, squash, lower).Ok? ==> PlanInDialect(Normalize(raw, squash, lower).value)
  {
    hide Selector, Contains, Prefixed, NormalFields, NormalPagination, HandOff, RuleInDialect, PagesInDialect, Keys, NormalRule, IsNormal, Canonicals, Settles, Folds;
    if Normalize(raw, squash, lower).Ok? {
      var responseType, canonical := FormatOf(raw), Canonicals(squash);
      var n := Normalize(raw, squash, lower).value;
      CanonicalsSettle(squash);
      FieldsShape(raw.fields, responseType, canonical);
      FieldsNonempty(raw.fields, responseType, canonical);
      HandOffShape(raw.mode, NormalFields(raw.fields, responseType, canonical), responseType, canonical, lower);
      forall i | 0 <= i < |n.fields| ensures RuleInDialect(n.fields[i].rule, responseType) {
        assert canonical(n.fields[i].key) == n.fields[i].key;
        IsNormalInDialect(n.fields[i].rule, responseType);
      }
      NormalPagesInDialect(raw.pagination, responseType);
      assert PagesInDialect(NO_PAGES) by { NoPagesInDialect(); }
      SelectorShape(if raw.itemsSelector != "" then raw.itemsSelector else if responseType == Json then "$" else "body", responseType);
    }
  }

  lemma NoPagesInDialect()
    ensures PagesInDialect(NO_PAGES)
  {
  }

  // The promise without that condition is false: a selector that begins with containsOwn( gets its
  // prefix in the first pass and is rewritten in the second.
  lemma ContainsOwnDrifts()
    ensures Selector("containsOwn(Title)", Html) == "css:containsOwn(Title)"
    ensures Selector("css:containsOwn(Title)", Html) != "css:containsOwn(Title)"
  {
    hide Strip, Replace, Contains;
    var raw, once := "containsOwn(Title)", "css:containsOwn(Title)";
    StripTrims(raw);
    assert raw + "" == raw;
    NoColonWord(raw, "");
    ShortText("");
    ReplaceShrinks(raw);
    assert !Prefixed(raw) && !("$" <= raw) by { assert raw[0] == 'c' && raw[1] == 'o'; }
    assert "css:" + raw == once;
    SelectorShape(raw, Html);
    assert OWN_WORD <= raw by { assert raw[..12] == OWN_WORD; }
    SelectorTwice(once, Html);
  }

  // The same on a whole plan the normalizer accepts.
  function DriftingPlan(): Plan {
    Plan(Single, Http, Html, "containsOwn(Title)",
         [Field("heading", Rule("h1", StringKind, Some(true), RejectItem, FirstPolicy, Some([]), "", "", ""))], NO_PAGES)
  }

  lemma PlanDrifts(squash: string -> string, lower: string -> string)
    requires Folds(squash)
    ensures var first := Normalize(DriftingPlan(), squash, lower);
            first.Ok? && Normalize(first.value, squash, lower) != first
  {
    hide Selector, Contains, Folds, NormalFields, SettledFields;
    ContainsOwnDrifts();
    DiscoveryFixedPoint(DriftingPlan(), squash, lower);
    SelectorTwiceDrifts();
  }

  lemma SelectorTwiceDrifts()
    ensures Contains(Selector("containsOwn(Title)", Html), OWN)
  {
    hide Selector, Contains, Strip, Replace;
    ContainsOwnDrifts();
    var once := "css:containsOwn(Title)";
    assert Trim(once) && Prefixed(once);
    SelectorTwice(once, Html);
  }

  // A text that is cut right behind a space: n - 1 letters, a space and one more letter.
  function CutAt(n: nat): string
    requires n > 0
  {
    seq(n - 1, _ => 'a') + " b"
  }

  lemma CutDrifts(n: nat)
    requires n > 1
    ensures var c := Prefix(Strip(CutAt(n)), n); c != "" && !Trim(c)
  {
    var s := CutAt(n);
    StripTrims(s);
    assert s[0] == 'a' && s[|s| - 1] == 'b';
    assert Strip(s) == s;
    assert Prefix(s, n)[n - 1] == ' ';
  }

  // A label cut at 100 and a pattern cut at 512 behind a space lose the space in the second pass.
  lemma LabelDrifts(key: string, r: Rule, responseType: Format)
    requires r.caption == CutAt(100)
    ensures var n := NormalRule(key, r, responseType); NormalRule(key, n, responseType) != n
  {
    hide NormalRule, Contains, Trim;
    CutDrifts(100);
    RuleTwice(key, r, responseType, key);
    CaptionOf(key, r, responseType);
  }

  lemma CaptionOf(key: string, r: Rule, responseType: Format)
    ensures NormalRule(key, r, responseType).caption == Prefix(Strip(r.caption), 100)
  {
  }

  lemma PatternDrifts(group: int)
    ensures var n := NormalTransform(Regex(CutAt(512), group));
            n.Some? && NormalTransform(n.value) != n
  {
    hide Trim, Strip, Prefix;
    CutDrifts(512);
    TransformTwice(Regex(CutAt(512), group));
  }

  // ---------------------------------------------------------------- a guard on the raw plan

  // The selector does not begin with containsOwn( once it is stripped and rewritten.
  predicate SelectorGuard(raw: string) {
    var bare := Replace(Strip(raw));
    Prefixed(bare) || !(OWN_WORD <= bare)
  }

  // The text is not cut behind white space.
  predicate CutGuard(raw: string, n: nat)
    requires n > 0
  {
    |Strip(raw)| <= n || !IsSpace(Strip(raw)[n - 1])
  }

  predicate TransformGuard(t: Transform) {
    t.Regex? ==> CutGuard(t.pattern, 512)
  }

  predicate RuleGuard(r: Rule) {
    SelectorGuard(r.selector) && CutGuard(r.caption, 100) && (r.transforms.Some? ==> forall t :: t in r.transforms.value ==> TransformGuard(t))
  }

  lemma CutGuarded(raw: string, n: nat)
    requires n > 0
    ensures Trim(Prefix(Strip(raw), n)) <==> CutGuard(raw, n)
  {
    StripTrims(raw);
  }

  lemma TransformGuarded(t: Transform)
    ensures NormalTransform(t).Some? ==> (SettledTransform(NormalTransform(t).value) <==> TransformGuard(t))
    ensures NormalTransform(t).None? ==> TransformGuard(t)
  {
    hide Strip, Prefix, CutGuard, Trim;
    if t.Regex? {
      CutGuarded(t.pattern, 512);
      if NormalTransform(t).None? { EmptyCut(t.pattern, 512); }
    }
  }

  lemma EmptyCut(raw: string, n: nat)
    requires n > 0 && Prefix(Strip(raw), n) == ""
    ensures CutGuard(raw, n)
  {
  }

  lemma {:induction false} CollectGuarded(ts: seq<Transform>)
    ensures (forall u :: u in Collect(ts) ==> SettledTransform(u)) <==> forall i :: 0 <= i < |ts| ==> TransformGuard(ts[i])
  {
    hide NormalTransform, SettledTransform, TransformGuard;
    if ts != [] {
      CollectGuarded(ts[..|ts| - 1]);
      TransformGuarded(ts[|ts| - 1]);
    }
  }

  // Exactly which raw rules normalize to a rule that a second pass keeps.
  lemma RuleGuarded(key: string, r: Rule, responseType: Format)
    ensures SettledRule(NormalRule(key, r, responseType)) <==> RuleGuard(r)
  {
    hide FieldSelector, Contains, Strip, Trim, Collect, SettledTransform, TransformGuard, CutGuard, SelectorGuard, KindOf;
    var n := NormalRule(key, r, responseType);
    FieldSelectorShape(r.selector, responseType, n.kind);
    SelectorShape(r.selector, responseType);
    GuardedSelector(r.selector, responseType);
    CutGuarded(r.caption, 100);
    TransformsGuarded(r.transforms, n.kind);
  }

  lemma GuardedSelector(raw: string, responseType: Format)
    ensures Contains(Selector(raw, responseType), OWN) <==> !SelectorGuard(raw)
  {
    hide Contains, Strip, Replace, Prefixed, Selector;
    SelectorShape(raw, responseType);
  }

  lemma TransformsGuarded(raw: Option<seq<Transform>>, kind: Kind)
    ensures (forall u :: u in Transforms(raw, kind) ==> SettledTransform(u)) <==> (raw.Some? ==> forall t :: t in raw.value ==> TransformGuard(t))
  {
    hide Collect, TransformGuard, SettledTransform;
    var given := if raw.Some? then raw.value else if kind == UrlKind then [Plain(TrimText), Plain(AbsoluteUrl)] else [Plain(TrimText)];
    CollectGuarded(given);
    UrlIsFixed();
    PlainGuarded(TrimText);
    PlainGuarded(AbsoluteUrl);
  }

  lemma PlainGuarded(name: Name)
    ensures TransformGuard(Plain(name))
  {
  }

  // The raw field that decides its canonical key: no later one resolves to the same key.
  predicate Decides(raw: seq<Field>, i: nat, canonical: string -> string)
    requires i < |raw|
  {
    forall j :: i < j < |raw| ==> canonical(raw[j].key) != canonical(raw[i].key)
  }

  predicate PlanGuard(raw: Plan, squash: string -> string) {
    && SelectorGuard(if raw.itemsSelector != "" then raw.itemsSelector else if FormatOf(raw) == Json then "$" else "body")
    && (raw.pagination.paging !in {OtherPaging, NoPaging, NonePages, PageNumber, PageQuery} && raw.mode != Single ==>
          SelectorGuard(raw.pagination.selector))
    && forall i :: 0 <= i < |raw.fields| && Decides(raw.fields, i, Canonicals(squash)) ==> RuleGuard(raw.fields[i].rule)
  }

  lemma {:induction false} PutMembers(fields: seq<Field>, key: string, rule: Rule, f: Field)
    requires DistinctKeys(fields)
    ensures f in Put(fields, key, rule) <==> f == Field(key, rule) || (f in fields && f.key != key)
  {
    if fields != [] {
      var head, tail := fields[0], fields[1..];
      assert fields == [head] + tail;
      if head.key == key {
        assert forall g :: g in tail ==> g.key != key;
      } else {
        PutMembers(tail, key, rule, f);
      }
    }
  }

  // A dictionary built from the raw fields holds exactly the deciding ones, each normalized.
  lemma {:induction false} FieldsMeaning(raw: seq<Field>, responseType: Format, canonical: string -> string, f: Field)
    requires Settles(canonical)
    ensures f in NormalFields(raw, responseType, canonical) <==>
              exists i :: 0 <= i < |raw| && Decides(raw, i, canonical) && f.key == canonical(raw[i].key) && f.rule == NormalRule(f.key, raw[i].rule, responseType)
  {
    hide NormalRule, NormalList, Put;
    if raw != [] {
      var front, last := raw[..|raw| - 1], raw[|raw| - 1];
      var before, key := NormalFields(front, responseType, canonical), canonical(last.key);
      FieldsMeaning(front, responseType, canonical, f);
      FieldsShape(front, responseType, canonical);
      ListDistinct(before, responseType, canonical);
      PutMembers(before, key, NormalRule(key, last.rule, responseType), f);
      assert Decides(raw, |raw| - 1, canonical);
      forall i | 0 <= i < |front|
        ensures Decides(raw, i, canonical) <==> Decides(front, i, canonical) && canonical(raw[i].key) != key
      {
        DecidesNext(raw, i, canonical);
      }
    }
  }

  lemma DecidesNext(raw: seq<Field>, i: nat, canonical: string -> string)
    requires i < |raw| - 1
    ensures Decides(raw, i, canonical) <==>
              Decides(raw[..|raw| - 1], i, canonical) && canonical(raw[i].key) != canonical(raw[|raw| - 1].key)
  {
    var front := raw[..|raw| - 1];
    assert forall j :: 0 <= j < |front| ==> front[j] == raw[j];
    if Decides(front, i, canonical) && canonical(raw[i].key) != canonical(raw[|raw| - 1].key) {
      forall j | i < j < |raw| ensures canonical(raw[j].key) != canonical(raw[i].key) {
        if j < |front| { assert front[j] == raw[j]; }
      }
    }
    if Decides(raw, i, canonical) {
      forall j | i < j < |front| ensures canonical(front[j].key) != canonical(front[i].key) { assert front[j] == raw[j]; }
    }
  }

  lemma SettledMembers(fields: seq<Field>)
    ensures SettledFields(fields) <==> forall f :: f in fields ==> SettledRule(f.rule)
  {
    hide SettledRule;
    forall f | f in fields && SettledFields(fields) ensures SettledRule(f.rule) {
      var i :| 0 <= i < |fields| && fields[i] == f;
    }
  }

  predicate DecidersGuarded(raw: seq<Field>, canonical: string -> string) {
    forall i :: 0 <= i < |raw| && Decides(raw, i, canonical) ==> RuleGuard(raw[i].rule)
  }

  lemma FieldsGuarded(raw: seq<Field>, responseType: Format, canonical: string -> string)
    requires Settles(canonical)
    ensures SettledFields(NormalFields(raw, responseType, canonical)) <==> DecidersGuarded(raw, canonical)
  {
    hide NormalFields, NormalRule, SettledRule, RuleGuard, SettledFields, Decides, Settles;
    var fields := NormalFields(raw, responseType, canonical);
    SettledMembers(fields);
    forall f | f in fields && DecidersGuarded(raw, canonical) ensures SettledRule(f.rule) {
      FieldsMeaning(raw, responseType, canonical, f);
      var i :| 0 <= i < |raw| && Decides(raw, i, canonical) && f.key == canonical(raw[i].key) && f.rule == NormalRule(f.key, raw[i].rule, responseType);
      RuleGuarded(f.key, raw[i].rule, responseType);
    }
    forall i | 0 <= i < |raw| && Decides(raw, i, canonical) && SettledFields(fields) ensures RuleGuard(raw[i].rule) {
      var key := canonical(raw[i].key);
      FieldsMeaning(raw, responseType, canonical, Field(key, NormalRule(key, raw[i].rule, responseType)));
      RuleGuarded(key, raw[i].rule, responseType);
    }
  }

  lemma ListDistinct(fields: seq<Field>, responseType: Format, canonical: string -> string)
    requires NormalList(fields, responseType, canonical)
    ensures DistinctKeys(fields)
  {
    hide IsNormal;
  }

  predicate AllSettled(fields: seq<Field>) {
    forall f :: f in fields ==> SettledRule(f.rule)
  }

  // Adopting a column drops no rule and adds none.
  lemma {:induction false} AdoptKeepsRules(fields: seq<Field>, lower: string -> string)
    ensures Adopt(fields, lower).Some? ==> (AllSettled(Adopt(fields, lower).value) <==> AllSettled(fields))
  {
    hide SettledRule;
    if fields != [] {
      var head, tail := fields[0], fields[1..];
      assert fields == [head] + tail;
      if lower(head.key) in {"url", "link", "href"} {
        var out := tail + [Field("detailUrl", head.rule)];
        assert out[|out| - 1] in out && head in fields;
        assert forall f :: f in tail ==> f in out && f in fields;
      } else {
        AdoptKeepsRules(tail, lower);
        if Adopt(fields, lower).Some? {
          var rest := Adopt(tail, lower).value;
          assert Adopt(fields, lower).value == [head] + rest;
          AllSettledCons(head, rest);
          AllSettledCons(head, tail);
        }
      }
    }
  }

  lemma AllSettledCons(head: Field, tail: seq<Field>)
    ensures AllSettled([head] + tail) <==> SettledRule(head.rule) && AllSettled(tail)
  {
    hide SettledRule;
    assert head in [head] + tail && forall f :: f in tail ==> f in [head] + tail;
  }

  lemma HandOffKeepsRules(mode: Mode, fields: seq<Field>, lower: string -> string)
    ensures HandOff(mode, fields, lower).Some? ==> (SettledFields(HandOff(mode, fields, lower).value) <==> SettledFields(fields))
  {
    hide SettledRule, SettledFields, Adopt, AllSettled;
    SettledAre(fields);
    AdoptKeepsRules(fields, lower);
    if Adopt(fields, lower).Some? { SettledAre(Adopt(fields, lower).value); }
  }

  lemma SettledAre(fields: seq<Field>)
    ensures SettledFields(fields) <==> AllSettled(fields)
  {
    SettledMembers(fields);
  }

  lemma PagesGuarded(raw: Plan, responseType: Format)
    requires NormalPagination(raw.pagination, responseType).Ok?
    ensures var pages := if raw.mode == Single then NO_PAGES else NormalPagination(raw.pagination, responseType).value;
            !Contains(pages.selector, OWN) <==>
              (raw.pagination.paging !in {OtherPaging, NoPaging, NonePages, PageNumber, PageQuery} && raw.mode != Single ==>
                 SelectorGuard(raw.pagination.selector))
  {
    hide Contains, Selector, SelectorGuard;
    GuardedSelector(raw.pagination.selector, responseType);
    ShortText("");
  }

  // Exactly which raw plans, once accepted, normalize to a plan that a second pass keeps: a check on the
  // top-level selectors and on the deciding rules, before the first pass.
  lemma GuardIsExact(raw: Plan, squash: string -> string, lower: string -> string)
    requires Folds(squash)
    ensures var first := Normalize(raw, squash, lower);
            first.Ok? ==> (Normalize(first.value, squash, lower) == first <==> PlanGuard(raw, squash))
  {
    hide Selector, Contains, NormalFields, SettledFields, RuleGuard, SelectorGuard, Decides, Canonicals, Settles, Folds, HandOff, NormalPagination;
    if Normalize(raw, squash, lower).Ok? {
      var responseType, canonical := FormatOf(raw), Canonicals(squash);
      CanonicalsSettle(squash);
      FieldsGuarded(raw.fields, responseType, canonical);
      HandOffKeepsRules(raw.mode, NormalFields(raw.fields, responseType, canonical), lower);
      GuardedSelector(if raw.itemsSelector != "" then raw.itemsSelector else if responseType == Json then "$" else "body", responseType);
      PagesGuarded(raw, responseType);
      DiscoveryFixedPoint(raw, squash, lower);
    }
  }
}
