/** The model list of api/model_catalog.py, and the Codex catalog derived from it. */
module ModelCatalog {
  import opened Options
  import opened GatewayModelIds

  const ONE_M_CONTEXT := 1_000_000

  datatype Model = Model(id: string, displayName: string)

  /** A configured or cached provider model; `thinking` is None when it is not known. */
  datatype Info = Info(modelRef: string, thinking: Option<bool>, contextWindow: int)

  // --- What is to be listed ---

  /** The ids of one provider model, in order. */
  function Variants(info: Info): seq<Model> {
    (if info.thinking == Some(false) then [] else [Model(GatewayModelId(info.modelRef), info.modelRef)])
    + [Model(NoThinkingGatewayModelId(info.modelRef), info.modelRef + " (no thinking)")]
    + (if info.contextWindow < ONE_M_CONTEXT then []
       else [Model(OneMGatewayModelId(info.modelRef), info.modelRef + " (1M context)")])
  }

  /** Which ids are listed for a model, and how: the plain one unless it can not think, the 1M one if it is long. */
  lemma VariantsAre(info: Info, m: Model)
    ensures m in Variants(info)
            <==> || (m == Model("anthropic/" + info.modelRef, info.modelRef) && info.thinking != Some(false))
                 || m == Model("claude-3-freecc-no-thinking/" + info.modelRef, info.modelRef + " (no thinking)")
                 || (m == Model("anthropic/" + info.modelRef + "[1m]", info.modelRef + " (1M context)")
                     && info.contextWindow >= 1_000_000)
  {
    assert "anthropic" + "/" + info.modelRef == "anthropic/" + info.modelRef;
    assert "claude-3-freecc-no-thinking" + "/" + info.modelRef == "claude-3-freecc-no-thinking/" + info.modelRef;
  }

  function AllVariants(infos: seq<Info>): seq<Model> {
    if infos == [] then [] else AllVariants(infos[..|infos| - 1]) + Variants(infos[|infos| - 1])
  }

  function Ids(models: seq<Model>): set<string> { set m | m in models :: m.id }

  predicate Distinct(models: seq<Model>) {
    forall i, j :: 0 <= i < j < |models| ==> models[i].id != models[j].id
  }

  /** The first model of each id. */
  function Firsts(wanted: seq<Model>): seq<Model> {
    if wanted == [] then []
    else
      var before, last := Firsts(wanted[..|wanted| - 1]), wanted[|wanted| - 1];
      if last.id in Ids(before) then before else before + [last]
  }

  lemma {:induction false} FirstsAre(wanted: seq<Model>)
    ensures Distinct(Firsts(wanted)) && Ids(Firsts(wanted)) == Ids(wanted)
    ensures forall m :: m in Firsts(wanted) ==> m in wanted
  {
    if wanted != [] {
      var init, last := wanted[..|wanted| - 1], wanted[|wanted| - 1];
      FirstsAre(init);
      assert wanted == init + [last];
      assert Ids(wanted) == Ids(init) + {last.id};
      assert Ids(Firsts(init) + [last]) == Ids(Firsts(init)) + {last.id};
    }
  }

  lemma OneMore(wanted: seq<Model>, m: Model)
    ensures Firsts(wanted + [m]) == if m.id in Ids(Firsts(wanted)) then Firsts(wanted) else Firsts(wanted) + [m]
  {
    assert (wanted + [m])[..|wanted|] == wanted;
  }

  /** _append_unique_model; `seen` has the ids of `models`, the first models of what was `wanted` so far. */
  method AppendUniqueModel(models: seq<Model>, seen: set<string>, model: Model, ghost wanted: seq<Model>)
    returns (models': seq<Model>, seen': set<string>)
    requires models == Firsts(wanted) && seen == Ids(models)
    ensures models' == Firsts(wanted + [model]) && seen' == Ids(models')
  {
    OneMore(wanted, model);
    if model.id in seen {
      return models, seen;
    }
    assert Ids(models + [model]) == seen + {model.id};
    seen' := seen + {model.id};
    models' := models + [model];
  }

  /** _append_provider_model_variants */
  method AppendVariants(models: seq<Model>, seen: set<string>, info: Info, ghost wanted: seq<Model>)
    returns (models': seq<Model>, seen': set<string>)
    requires models == Firsts(wanted) && seen == Ids(models)
    ensures models' == Firsts(wanted + Variants(info)) && seen' == Ids(models')
  {
    hide Firsts, Ids;
    models', seen' := models, seen;
    ghost var w := wanted;
    if info.thinking != Some(false) {
      var normal := Model(GatewayModelId(info.modelRef), info.modelRef);
      models', seen' := AppendUniqueModel(models', seen', normal, w);
      w := w + [normal];
    }
    var plain := Model(NoThinkingGatewayModelId(info.modelRef), info.modelRef + " (no thinking)");
    models', seen' := AppendUniqueModel(models', seen', plain, w);
    w := w + [plain];
    if info.contextWindow >= ONE_M_CONTEXT {
      var long := Model(OneMGatewayModelId(info.modelRef), info.modelRef + " (1M context)");
      models', seen' := AppendUniqueModel(models', seen', long, w);
      w := w + [long];
    }
    assert w == wanted + Variants(info);
  }

  lemma OneMoreInfo(infos: seq<Info>, i: nat)
    requires i < |infos|
    ensures AllVariants(infos[..i + 1]) == AllVariants(infos[..i]) + Variants(infos[i])
  {
    assert infos[..i + 1][..i] == infos[..i];
  }

  method AppendAllVariants(models: seq<Model>, seen: set<string>, infos: seq<Info>, ghost wanted: seq<Model>)
    returns (models': seq<Model>, seen': set<string>)
    requires models == Firsts(wanted) && seen == Ids(models)
    ensures models' == Firsts(wanted + AllVariants(infos)) && seen' == Ids(models')
  {
    hide Firsts, Variants;
    models', seen' := models, seen;
    assert wanted + AllVariants(infos[..0]) == wanted;
    for i := 0 to |infos|
      invariant models' == Firsts(wanted + AllVariants(infos[..i])) && seen' == Ids(models')
    {
      models', seen' := AppendVariants(models', seen', infos[i], wanted + AllVariants(infos[..i]));
      assert wanted + AllVariants(infos[..i]) + Variants(infos[i]) == wanted + AllVariants(infos[..i + 1]) by {
        OneMoreInfo(infos, i);
      }
    }
    assert infos[..|infos|] == infos;
  }

  method AppendAll(models: seq<Model>, seen: set<string>, batch: seq<Model>, ghost wanted: seq<Model>)
    returns (models': seq<Model>, seen': set<string>)
    requires models == Firsts(wanted) && seen == Ids(models)
    ensures models' == Firsts(wanted + batch) && seen' == Ids(models')
  {
    models', seen' := models, seen;
    assert wanted + batch[..0] == wanted;
    for i := 0 to |batch|
      invariant models' == Firsts(wanted + batch[..i]) && seen' == Ids(models')
    {
      models', seen' := AppendUniqueModel(models', seen', batch[i], wanted + batch[..i]);
      assert wanted + batch[..i] + [batch[i]] == wanted + batch[..i + 1];
    }
    assert batch[..|batch|] == batch;
  }

  // --- Order ---

  /** The list comprehension that keeps the models with one of these ids. */
  function Keep(models: seq<Model>, ids: set<string>): seq<Model> {
    if models == [] then [] else (if models[0].id in ids then [models[0]] else []) + Keep(models[1..], ids)
  }

  lemma {:induction false} KeepAppend(a: seq<Model>, b: seq<Model>, ids: set<string>)
    ensures Keep(a + b, ids) == Keep(a, ids) + Keep(b, ids)
  {
    if a == [] {
      assert a + b == b;
    } else {
      assert (a + b)[1..] == a[1..] + b;
      KeepAppend(a[1..], b, ids);
    }
  }

  lemma {:induction false} KeepAllOrNone(models: seq<Model>, ids: set<string>)
    ensures (forall m :: m in models ==> m.id in ids) ==> Keep(models, ids) == models
    ensures (forall m :: m in models ==> m.id !in ids) ==> Keep(models, ids) == []
    ensures forall m :: m in Keep(models, ids) <==> m in models && m.id in ids
  {
    if models != [] {
      KeepAllOrNone(models[1..], ids);
    }
  }

  /** Three disjoint sets of ids that cover the models divide them. */
  lemma {:induction false} KeepDivides(models: seq<Model>, a: set<string>, b: set<string>, c: set<string>)
    requires a !! b && a !! c && b !! c && Ids(models) <= a + b + c
    ensures multiset(Keep(models, a)) + multiset(Keep(models, b)) + multiset(Keep(models, c)) == multiset(models)
  {
    if models != [] {
      var m := models[0];
      assert models == [m] + models[1..];
      assert m in models && m.id in Ids(models);
      assert Ids(models[1..]) <= Ids(models);
      KeepDivides(models[1..], a, b, c);
    }
  }

  /** A sort key that orders any two models. */
  ghost predicate Total(le: (Model, Model) -> bool) {
    && (forall x, y :: le(x, y) || le(y, x))
    && (forall x, y, z :: le(x, y) && le(y, z) ==> le(x, z))
  }

  ghost predicate Sorted(models: seq<Model>, le: (Model, Model) -> bool) {
    forall i, j :: 0 <= i < j < |models| ==> le(models[i], models[j])
  }

  function Insert(m: Model, sorted: seq<Model>, le: (Model, Model) -> bool): seq<Model> {
    if sorted == [] || !le(sorted[0], m) then [m] + sorted else [sorted[0]] + Insert(m, sorted[1..], le)
  }

  /** list.sort, which is stable: a model comes after its equals that were before it. */
  function Sort(models: seq<Model>, le: (Model, Model) -> bool): seq<Model> {
    if models == [] then [] else Insert(models[|models| - 1], Sort(models[..|models| - 1], le), le)
  }

  lemma {:induction false} InsertAdds(m: Model, sorted: seq<Model>, le: (Model, Model) -> bool)
    ensures multiset(Insert(m, sorted, le)) == multiset(sorted) + multiset{m}
  {
    if sorted != [] && le(sorted[0], m) {
      InsertAdds(m, sorted[1..], le);
      assert sorted == [sorted[0]] + sorted[1..];
    }
  }

  lemma {:induction false} InsertSorts(m: Model, sorted: seq<Model>, le: (Model, Model) -> bool)
    requires Total(le) && Sorted(sorted, le)
    ensures Sorted(Insert(m, sorted, le), le)
  {
    if sorted != [] && le(sorted[0], m) {
      var rest := Insert(m, sorted[1..], le);
      InsertSorts(m, sorted[1..], le);
      InsertAdds(m, sorted[1..], le);
      forall i | 0 <= i < |rest| ensures le(sorted[0], rest[i]) {
        assert rest[i] in multiset(sorted[1..]) + multiset{m};
      }
    } else if sorted != [] {
      assert le(m, sorted[0]);
    }
  }

  lemma {:induction false} SortSorts(models: seq<Model>, le: (Model, Model) -> bool)
    requires Total(le)
    ensures Sorted(Sort(models, le), le) && multiset(Sort(models, le)) == multiset(models)
  {
    if models != [] {
      var init := models[..|models| - 1];
      assert models == init + [models[|models| - 1]];
      SortSorts(init, le);
      InsertSorts(models[|models| - 1], Sort(init, le), le);
      InsertAdds(models[|models| - 1], Sort(init, le), le);
    }
  }

  /** Strings are compared character by character. */
  predicate Leq(a: string, b: string) {
    a == "" || (b != "" && (a[0] < b[0] || (a[0] == b[0] && Leq(a[1..], b[1..]))))
  }

  lemma {:induction false} LeqIsTotal(a: string, b: string)
    ensures Leq(a, b) || Leq(b, a)
    ensures Leq(a, b) && Leq(b, a) ==> a == b
    ensures Leq(a, a)
  {
    if a != "" {
      LeqIsTotal(a[1..], a[1..]);
      if b != "" {
        LeqIsTotal(a[1..], b[1..]);
        if a[0] == b[0] && a[1..] == b[1..] { assert a == [a[0]] + a[1..] == b; }
      }
    }
  }

  lemma {:induction false} LeqIsTransitive(a: string, b: string, c: string)
    requires Leq(a, b) && Leq(b, c)
    ensures Leq(a, c)
  {
    if a != "" && a[0] == b[0] == c[0] {
      LeqIsTransitive(a[1..], b[1..], c[1..]);
    }
  }

  /** By display name without regard to case, then by id. */
  predicate ByName(x: Model, y: Model, casefold: string -> string) {
    var a, b := casefold(x.displayName), casefold(y.displayName);
    Leq(a, b) && (a == b ==> Leq(x.id, y.id))
  }

  lemma ByNameIsTotal(casefold: string -> string)
    ensures Total((x: Model, y: Model) => ByName(x, y, casefold))
  {
    forall x: Model, y: Model ensures ByName(x, y, casefold) || ByName(y, x, casefold) {
      LeqIsTotal(casefold(x.displayName), casefold(y.displayName));
      LeqIsTotal(x.id, y.id);
    }
    forall x: Model, y: Model, z: Model | ByName(x, y, casefold) && ByName(y, z, casefold)
      ensures ByName(x, z, casefold)
    {
      var a, b, c := casefold(x.displayName), casefold(y.displayName), casefold(z.displayName);
      LeqIsTransitive(a, b, c);
      LeqIsTotal(a, b);
      if a == c { LeqIsTotal(b, c); LeqIsTransitive(x.id, y.id, z.id); }
    }
  }

  function IndexOf(order: seq<string>, id: string): nat {
    if order == [] || order[0] == id then 0 else 1 + IndexOf(order[1..], id)
  }

  // --- The list ---

  /** _resolve_pinned_order */
  function PinnedOrder(seen: set<string>): seq<string> {
    (if "claude-opus-4-20250514[1m]" in seen then ["claude-opus-4-20250514[1m]"]
     else if "claude-opus-4-20250514" in seen then ["claude-opus-4-20250514"] else [])
    + (if "claude-fable-5[1m]" in seen then ["claude-fable-5[1m]"]
       else if "claude-fable-5" in seen then ["claude-fable-5"] else [])
    + (if "claude-sonnet-4-20250514" in seen then ["claude-sonnet-4-20250514"] else [])
    + (if "claude-sonnet-4-20250514[1m]" in seen then ["claude-sonnet-4-20250514[1m]"] else [])
    + (if "claude-haiku-4-20250514" in seen then ["claude-haiku-4-20250514"] else [])
  }

  function Others(order: seq<string>, ids: set<string>): seq<string> {
    if order == [] then [] else (if order[0] in ids then [] else [order[0]]) + Others(order[1..], ids)
  }

  lemma {:induction false} OthersAre(order: seq<string>, ids: set<string>, id: string)
    ensures id in Others(order, ids) <==> id in order && id !in ids
  {
    if order != [] {
      OthersAre(order[1..], ids, id);
    }
  }

  function Wanted(configured: seq<Info>, cached: seq<Info>, aliases: seq<Model>, supported: seq<Model>): seq<Model> {
    AllVariants(configured) + AllVariants(cached) + aliases + supported
  }

  lemma KeepOneMore(wanted: seq<Model>, m: Model, ids: set<string>)
    requires ids <= Ids(Firsts(wanted))
    ensures Keep(Firsts(wanted + [m]), ids) == Keep(Firsts(wanted), ids)
  {
    OneMore(wanted, m);
    if m.id !in Ids(Firsts(wanted)) {
      KeepAppend(Firsts(wanted), [m], ids);
    }
  }

  /** Keeping the ids of a prefix keeps the prefix. */
  lemma {:induction false} PrefixIsKept(wanted: seq<Model>, more: seq<Model>, kept: seq<Model>)
    requires kept == Firsts(wanted)
    ensures Keep(Firsts(wanted + more), Ids(kept)) == kept
    decreases |more|
  {
    if more == [] {
      assert wanted + more == wanted;
      KeepAllOrNone(kept, Ids(kept));
    } else {
      var init, last := more[..|more| - 1], more[|more| - 1];
      assert wanted + more == wanted + init + [last];
      hide Firsts, Keep;
      PrefixIsKept(wanted, init, kept);
      FirstsGrow(wanted, init);
      KeepOneMore(wanted + init, last, Ids(kept));
    }
  }

  lemma {:induction false} FirstsGrow(wanted: seq<Model>, more: seq<Model>)
    ensures Ids(Firsts(wanted)) <= Ids(Firsts(wanted + more))
    decreases |more|
  {
    if more == [] {
      assert wanted + more == wanted;
    } else {
      var init, last := more[..|more| - 1], more[|more| - 1];
      FirstsGrow(wanted, init);
      assert wanted + more == wanted + init + [last];
      OneMore(wanted + init, last);
    }
  }

  /**
   build_models_list_response. `cached` comes without the models hidden behind a configured override,
   `aliases` are the 1M aliases whose override has a long context, and `casefold` is str.casefold.
   The list has the first model of every id, once: the configured ones in their order, then the pinned
   ones in theirs, then the rest by name.
   */
  method BuildModelsList(configured: seq<Info>, cached: seq<Info>, aliases: seq<Model>, supported: seq<Model>,
                         casefold: string -> string)
    returns (list: seq<Model>, ghost top: seq<Model>, ghost pinned: seq<Model>, ghost rest: seq<Model>)
    ensures list == top + pinned + rest
    ensures multiset(list) == multiset(Firsts(Wanted(configured, cached, aliases, supported)))
    ensures Ids(list) == Ids(Wanted(configured, cached, aliases, supported)) && Distinct(list)
    ensures top == Firsts(AllVariants(configured))
    ensures forall m :: m in pinned ==> m.id in PinnedOrder(Ids(list)) && m.id !in Ids(top)
    ensures forall i, j :: 0 <= i < j < |pinned| ==>
              IndexOf(PinnedOrder(Ids(list)), pinned[i].id) <= IndexOf(PinnedOrder(Ids(list)), pinned[j].id)
    ensures Sorted(rest, (x: Model, y: Model) => ByName(x, y, casefold))
    ensures forall m :: m in rest ==> m.id !in PinnedOrder(Ids(list)) && m.id !in Ids(top)
  {
    var models, configuredIds, seen;
    models, configuredIds, seen, top := Collect(configured, cached, aliases, supported);
    FirstsAre(Wanted(configured, cached, aliases, supported));
    list, pinned, rest := Arrange(models, configuredIds, seen, casefold);
  }

  lemma Regroup(a: seq<Model>, b: seq<Model>, c: seq<Model>, d: seq<Model>)
    ensures a + b + c + d == a + (b + c + d)
  {
  }

  /** Everything that is appended, in order. */
  method Collect(configured: seq<Info>, cached: seq<Info>, aliases: seq<Model>, supported: seq<Model>)
    returns (models: seq<Model>, configuredIds: set<string>, seen: set<string>, ghost top: seq<Model>)
    ensures models == Firsts(Wanted(configured, cached, aliases, supported)) && seen == Ids(models)
    ensures top == Firsts(AllVariants(configured)) && configuredIds == Ids(top) && Keep(models, configuredIds) == top
  {
    ghost var a, b := AllVariants(configured), AllVariants(cached);
    assert Ids([]) == {} && [] + a == a;
    models, seen := AppendAllVariants([], {}, configured, []);
    top, configuredIds := models, seen;
    models, seen := AppendAllVariants(models, seen, cached, a);
    models, seen := AppendAll(models, seen, aliases, a + b);
    models, seen := AppendAll(models, seen, supported, a + b + aliases);
    Regroup(a, b, aliases, supported);
    PrefixIsKept(a, b + aliases + supported, top);
  }

  method Arrange(models: seq<Model>, configuredIds: set<string>, seen: set<string>, casefold: string -> string)
    returns (list: seq<Model>, pinned: seq<Model>, rest: seq<Model>)
    requires Distinct(models) && seen == Ids(models)
    ensures list == Keep(models, configuredIds) + pinned + rest
    ensures multiset(list) == multiset(models) && Ids(list) == seen && Distinct(list)
    ensures forall m :: m in pinned ==> m.id in PinnedOrder(seen) && m.id !in configuredIds
    ensures Sorted(pinned, (x: Model, y: Model) => IndexOf(PinnedOrder(seen), x.id) <= IndexOf(PinnedOrder(seen), y.id))
    ensures Sorted(rest, (x: Model, y: Model) => ByName(x, y, casefold))
    ensures forall m :: m in rest ==> m.id !in PinnedOrder(seen) && m.id !in configuredIds
  {
    var order := PinnedOrder(seen);
    var pinnedOrder := Others(order, configuredIds);
    var pinnedIds := set id | id in pinnedOrder;
    var restIds := seen - pinnedIds - configuredIds;
    forall id ensures id in pinnedIds <==> id in order && id !in configuredIds { OthersAre(order, configuredIds, id); }
    var byIndex := (x: Model, y: Model) => IndexOf(order, x.id) <= IndexOf(order, y.id);
    var byName := (x: Model, y: Model) => ByName(x, y, casefold);
    pinned := Sort(Keep(models, pinnedIds), byIndex);
    rest := Sort(Keep(models, restIds), byName);
    list := Keep(models, configuredIds) + pinned + rest;
    ByNameIsTotal(casefold);
    SortSorts(Keep(models, pinnedIds), byIndex);
    SortSorts(Keep(models, restIds), byName);
    KeepDivides(models, configuredIds, pinnedIds, restIds);
    KeepAllOrNone(models, pinnedIds);
    KeepAllOrNone(models, restIds);
    SameMembers(pinned, Keep(models, pinnedIds));
    SameMembers(rest, Keep(models, restIds));
    SameMembers(list, models);
    DistinctIsAPermutation(models, list);
  }

  lemma SameMembers(a: seq<Model>, b: seq<Model>)
    requires multiset(a) == multiset(b)
    ensures forall m :: m in a <==> m in b
    ensures Ids(a) == Ids(b)
  {
    forall m ensures m in a <==> m in b { assert m in a <==> m in multiset(a); }
  }

  lemma DistinctIsAPermutation(a: seq<Model>, b: seq<Model>)
    requires Distinct(a) && multiset(a) == multiset(b)
    ensures Distinct(b)
  {
    forall i, j | 0 <= i < j < |b| ensures b[i].id != b[j].id {
      SameMembers(a, b);
      assert b[i] in a && b[j] in a;
      if b[i].id == b[j].id {
        var k :| 0 <= k < |a| && a[k] == b[i];
        var l :| 0 <= l < |a| && a[l] == b[j];
        assert k == l;
        Twice(b, i, j);
        Once(a, k);
      }
    }
  }

  lemma Once(a: seq<Model>, k: nat)
    requires k < |a| && Distinct(a)
    ensures multiset(a)[a[k]] == 1
  {
    assert a == a[..k] + [a[k]] + a[k + 1..];
    assert a[k] !in a[..k] && a[k] !in a[k + 1..];
  }

  lemma Twice(b: seq<Model>, i: nat, j: nat)
    requires i < j < |b| && b[i] == b[j]
    ensures multiset(b)[b[i]] >= 2
  {
    assert b == b[..i] + [b[i]] + b[i + 1..j] + [b[j]] + b[j + 1..];
  }

  // --- What the listed ids lead to ---

  /** What an id listed for a provider model is meant for: that model, and the no-thinking id with reasoning off. */
  function Meant(info: Info, v: Model, policy: Preference): Resolution {
    var parts := Partition(info.modelRef);
    ToProvider(parts.head, parts.tail, if v.id == NoThinkingGatewayModelId(info.modelRef) then Off else policy)
  }

  predicate LeadsBack(info: Info, v: Model, policy: Preference) { Resolve(v.id, policy) == Meant(info, v, policy) }

  /** The id does lead there exactly if the model's name does not end in the 1M suffix, or the id added one. */
  lemma ListedVariantsResolve(info: Info, v: Model, policy: Preference)
    requires IsProviderModelRef(info.modelRef) && v in Variants(info)
    ensures LeadsBack(info, v, policy)
            <==> !EndsWith(info.modelRef, ONE_M_SUFFIX) || v.id == OneMGatewayModelId(info.modelRef)
    ensures SlugResolves(v.id, v.displayName, policy, Meant(info, v, policy))
            <==> !EndsWith(info.modelRef, ONE_M_SUFFIX) || v.id == OneMGatewayModelId(info.modelRef)
  {
    var p, m := Partition(info.modelRef).head, Partition(info.modelRef).tail;
    PartitionJoins(info.modelRef);
    SuffixIsInTail(p, m);
    EncodedIdsResolve(p, m, policy);
    OneMIdsResolve(p, m, policy);
    CodexSlugsResolve(p, m, v.displayName, policy);
    IdsDiffer(info.modelRef);
    VariantIds(info, v);
  }

  lemma VariantIds(info: Info, v: Model)
    requires v in Variants(info)
    ensures v.id == GatewayModelId(info.modelRef) || v.id == NoThinkingGatewayModelId(info.modelRef)
            || v.id == OneMGatewayModelId(info.modelRef)
  {
  }

  lemma IdsDiffer(modelRef: string)
    ensures NoThinkingGatewayModelId(modelRef) != GatewayModelId(modelRef)
    ensures NoThinkingGatewayModelId(modelRef) != OneMGatewayModelId(modelRef)
    ensures GatewayModelId(modelRef) != OneMGatewayModelId(modelRef)
  {
    assert NoThinkingGatewayModelId(modelRef)[0] == 'c' && GatewayModelId(modelRef)[0] == 'a';
    assert |GatewayModelId(modelRef)| < |OneMGatewayModelId(modelRef)|;
  }

  lemma {:induction false} ListsVariants(infos: seq<Info>, info: Info, v: Model)
    requires info in infos && v in Variants(info)
    ensures v in AllVariants(infos)
  {
    if info != infos[|infos| - 1] {
      ListsVariants(infos[..|infos| - 1], info, v);
    }
  }

  /** All ids listed for these models lead to what they are meant for. */
  ghost predicate AllLeadBack(infos: seq<Info>, policy: Preference) {
    forall info, v :: info in infos && v in Variants(info) ==> LeadsBack(info, v, policy)
  }

  ghost predicate AllPlain(infos: seq<Info>) {
    forall info :: info in infos ==> !EndsWith(info.modelRef, ONE_M_SUFFIX)
  }

  lemma OnlyPlainNamesLeadBack(infos: seq<Info>, policy: Preference)
    requires forall info :: info in infos ==> IsProviderModelRef(info.modelRef)
    ensures AllLeadBack(infos, policy) <==> AllPlain(infos)
  {
    hide LeadsBack, IsProviderModelRef, EndsWith;
    forall info, v | info in infos && v in Variants(info)
      ensures !EndsWith(info.modelRef, ONE_M_SUFFIX) ==> LeadsBack(info, v, policy)
    {
      ListedVariantsResolve(info, v, policy);
    }
    forall info | info in infos && EndsWith(info.modelRef, ONE_M_SUFFIX) ensures !AllLeadBack(infos, policy) {
      var v := Model(NoThinkingGatewayModelId(info.modelRef), info.modelRef + " (no thinking)");
      assert v in Variants(info);
      IdsDiffer(info.modelRef);
      ListedVariantsResolve(info, v, policy);
    }
  }

  /**
   From the models to the router: a list that BuildModelsList makes has every id of every provider model, and
   all of them lead back to their models if and only if no provider model's name ends in the 1M suffix.
   */
  lemma ListedIdsResolve(configured: seq<Info>, cached: seq<Info>, aliases: seq<Model>, supported: seq<Model>,
                         list: seq<Model>, policy: Preference)
    requires Ids(list) == Ids(Wanted(configured, cached, aliases, supported))
    requires forall info :: info in configured + cached ==> IsProviderModelRef(info.modelRef)
    ensures forall info, v :: info in configured + cached && v in Variants(info) ==> v.id in Ids(list)
    ensures AllLeadBack(configured + cached, policy) <==> AllPlain(configured + cached)
  {
    OnlyPlainNamesLeadBack(configured + cached, policy);
    forall info, v | info in configured + cached && v in Variants(info) ensures v.id in Ids(list) {
      if info in configured { ListsVariants(configured, info, v); } else { ListsVariants(cached, info, v); }
      assert v in Wanted(configured, cached, aliases, supported);
    }
  }

  // --- The Codex catalog ---

  /** An item of the list response, as far as it is well-formed. */
  datatype Item = Item(id: Option<string>, displayName: Option<string>)

  datatype Entry = Entry(slug: string, displayName: string, priority: nat)

  function CandidateOf(item: Item): Option<Candidate> {
    if item.id.None? then None
    else
      var named := item.displayName.Some? && item.displayName.value != "";
      CandidateFrom(item.id.value, if named then item.displayName.value else item.id.value)
  }

  /** A candidate is shown under the name of its item, or under its id if that has none or an empty one. */
  lemma CandidateNames(item: Item)
    requires CandidateOf(item).Some?
    ensures item.id.Some?
    ensures var name := CandidateOf(item).value.displayName;
            if item.displayName.None? || item.displayName == Some("") then name == item.id.value
            else Some(name) == item.displayName
  {
  }

  function Candidates(items: seq<Item>): seq<Candidate> {
    if items == [] then []
    else Candidates(items[..|items| - 1])
         + match CandidateOf(items[|items| - 1]) case Some(c) => [c] case None => []
  }

  /** _catalog_candidates */
  method CatalogCandidates(items: seq<Item>) returns (candidates: seq<Candidate>)
    ensures candidates == Candidates(items)
  {
    candidates := [];
    for i := 0 to |items|
      invariant candidates == Candidates(items[..i])
    {
      assert items[..i + 1][..i] == items[..i];
      var c := CandidateOf(items[i]);
      if c.Some? {
        candidates := candidates + [c.value];
      }
    }
    assert items[..|items|] == items;
  }

  function NormalRefs(candidates: seq<Candidate>): set<string> {
    set c | c in candidates && !c.forceNoThinking :: c.modelRef
  }

  /** A no-thinking candidate gives way to the normal one for the same model. */
  predicate Dropped(c: Candidate, normalRefs: set<string>) { c.forceNoThinking && c.modelRef in normalRefs }

  function Left(candidates: seq<Candidate>, normalRefs: set<string>): seq<Model> {
    if candidates == [] then []
    else
      var c := candidates[|candidates| - 1];
      Left(candidates[..|candidates| - 1], normalRefs)
      + if Dropped(c, normalRefs) then [] else [Model(c.slug, c.displayName)]
  }

  function Numbered(models: seq<Model>): seq<Entry> {
    seq(|models|, i requires 0 <= i < |models| => Entry(models[i].id, models[i].displayName, i))
  }

  /** What build_codex_model_catalog lists: of the candidates left, the first of each slug, numbered in order. */
  function CodexCatalog(items: seq<Item>): seq<Entry> {
    Numbered(Firsts(Left(Candidates(items), NormalRefs(Candidates(items)))))
  }

  lemma LeftOneMore(candidates: seq<Candidate>, n: nat, normalRefs: set<string>)
    requires n < |candidates|
    ensures Left(candidates[..n + 1], normalRefs)
            == if Dropped(candidates[n], normalRefs) then Left(candidates[..n], normalRefs)
               else Left(candidates[..n], normalRefs) + [Model(candidates[n].slug, candidates[n].displayName)]
  {
    assert candidates[..n + 1][..n] == candidates[..n];
  }

  lemma NumberedOneMore(models: seq<Model>, m: Model)
    ensures Numbered(models + [m]) == Numbered(models) + [Entry(m.id, m.displayName, |models|)]
    ensures Ids(models + [m]) == Ids(models) + {m.id}
  {
  }

  method BuildCodexModelCatalog(items: seq<Item>) returns (models: seq<Entry>)
    ensures models == CodexCatalog(items)
  {
    var candidates := CatalogCandidates(items);
    var normalRefs := set c | c in candidates && !c.forceNoThinking :: c.modelRef;
    ghost var kept: seq<Model> := [];
    var seenSlugs: set<string> := {};
    models := [];
    for n := 0 to |candidates|
      invariant kept == Firsts(Left(candidates[..n], normalRefs)) && seenSlugs == Ids(kept)
      invariant models == Numbered(kept)
    {
      var c := candidates[n];
      LeftOneMore(candidates, n, normalRefs);
      if c.forceNoThinking && c.modelRef in normalRefs {
        continue;
      }
      OneMore(Left(candidates[..n], normalRefs), Model(c.slug, c.displayName));
      if c.slug in seenSlugs {
        continue;
      }
      NumberedOneMore(kept, Model(c.slug, c.displayName));
      seenSlugs := seenSlugs + {c.slug};
      kept := kept + [Model(c.slug, c.displayName)];
      models := models + [Entry(c.slug, c.displayName, |models|)];
    }
    assert candidates[..|candidates|] == candidates;
  }

  lemma {:induction false} LeftHas(candidates: seq<Candidate>, normalRefs: set<string>, slug: string)
    ensures slug in Ids(Left(candidates, normalRefs))
            <==> exists c :: c in candidates && c.slug == slug && !Dropped(c, normalRefs)
  {
    if candidates != [] {
      var init, last := candidates[..|candidates| - 1], candidates[|candidates| - 1];
      assert candidates == init + [last];
      LeftHas(init, normalRefs, slug);
      assert Ids(Left(init, normalRefs) + [Model(last.slug, last.displayName)])
             == Ids(Left(init, normalRefs)) + {last.slug};
    }
  }

  /** Every slug is listed once, numbered by its place, and no candidate is lost but those that give way. */
  lemma CodexCatalogIsComplete(items: seq<Item>, c: Candidate)
    ensures var models := CodexCatalog(items);
            && (forall i, j :: 0 <= i < j < |models| ==> models[i].slug != models[j].slug)
            && (forall i :: 0 <= i < |models| ==> models[i].priority == i)
            && (c in Candidates(items) && !Dropped(c, NormalRefs(Candidates(items)))
                ==> exists i :: 0 <= i < |models| && models[i].slug == c.slug)
  {
    var left := Left(Candidates(items), NormalRefs(Candidates(items)));
    FirstsAre(left);
    LeftHas(Candidates(items), NormalRefs(Candidates(items)), c.slug);
    if c.slug in Ids(left) {
      var i :| 0 <= i < |Firsts(left)| && Firsts(left)[i].id == c.slug;
      assert CodexCatalog(items)[i].slug == c.slug;
    }
  }
}
