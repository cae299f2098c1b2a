/**
 Model ids: the three encodings of core/gateway_model_ids.py, and how application/routing.py and
 cli/launchers/codex_model_catalog.py undo them.
 */
module GatewayModelIds {
  import opened Options

  const GATEWAY_MODEL_ID_PREFIX := "anthropic"
  const NO_THINKING_GATEWAY_MODEL_ID_PREFIX := "claude-3-freecc-no-thinking"
  const ONE_M_SUFFIX := "[1m]"

  const FIRST_PROVIDER_IDS: seq<string> := [
    "nvidia_nim", "openai", "azure_openai", "open_router", "gemini", "vertex", "deepseek", "mistral",
    "mistral_codestral", "opencode", "opencode_go", "vercel", "bedrock", "huggingface", "cohere",
    "github_models"
  ]

  const LAST_PROVIDER_IDS: seq<string> := [
    "wafer", "kimi", "kimi_code", "kilo", "minimax", "cerebras", "groq", "sambanova",
    "fireworks", "cloudflare", "zai", "ollama_cloud", "lmstudio", "llamacpp", "ollama"
  ]

  /** PROVIDER_CATALOG's keys. */
  const SUPPORTED_PROVIDER_IDS := FIRST_PROVIDER_IDS + LAST_PROVIDER_IDS

  predicate Supported(p: string) { p in SUPPORTED_PROVIDER_IDS }

  // --- Strings ---

  datatype Parts = Parts(head: string, separated: bool, tail: string)

  /** str.partition("/") */
  function Partition(s: string): Parts {
    if s == "" then Parts("", false, "")
    else if s[0] == '/' then Parts("", true, s[1..])
    else
      var rest := Partition(s[1..]);
      Parts([s[0]] + rest.head, rest.separated, rest.tail)
  }

  predicate EndsWith(s: string, suffix: string) {
    |s| >= |suffix| && s[|s| - |suffix|..] == suffix
  }

  function StripOneM(s: string): string {
    if EndsWith(s, ONE_M_SUFFIX) then s[..|s| - |ONE_M_SUFFIX|] else s
  }

  lemma {:induction false} PartitionAtSlash(head: string, tail: string)
    requires '/' !in head
    ensures Partition(head + "/" + tail) == Parts(head, true, tail)
  {
    var s := head + "/" + tail;
    if head == "" {
      assert s[1..] == tail;
    } else {
      assert s[1..] == head[1..] + "/" + tail;
      PartitionAtSlash(head[1..], tail);
      assert [s[0]] + head[1..] == head;
    }
  }

  lemma {:induction false} PartitionJoins(s: string)
    requires Partition(s).separated
    ensures s == Partition(s).head + "/" + Partition(s).tail && '/' !in Partition(s).head
  {
    if s[0] != '/' {
      PartitionJoins(s[1..]);
    }
  }

  /** A slash ends the reach of the suffix. */
  lemma SuffixIsInTail(head: string, tail: string)
    ensures EndsWith(head + "/" + tail, ONE_M_SUFFIX) <==> EndsWith(tail, ONE_M_SUFFIX)
    ensures StripOneM(head + "/" + tail) == head + "/" + StripOneM(tail)
  {
    var s := head + "/" + tail;
    if |tail| >= 4 {
      assert s[|s| - 4..] == tail[|tail| - 4..];
      if EndsWith(tail, ONE_M_SUFFIX) { assert s[..|s| - 4] == head + "/" + tail[..|tail| - 4]; }
    } else if |s| >= 4 {
      assert s[|s| - 4..][3 - |tail|] == '/';
      assert ONE_M_SUFFIX[3 - |tail|] != '/';
    }
  }

  lemma StripAppended(s: string)
    ensures StripOneM(s + ONE_M_SUFFIX) == s && EndsWith(s + ONE_M_SUFFIX, ONE_M_SUFFIX)
  {
  }

  // --- Encoding and decoding ---

  function GatewayModelId(modelRef: string): string { GATEWAY_MODEL_ID_PREFIX + "/" + modelRef }

  function NoThinkingGatewayModelId(modelRef: string): string { NO_THINKING_GATEWAY_MODEL_ID_PREFIX + "/" + modelRef }

  function OneMGatewayModelId(modelRef: string): string { GatewayModelId(modelRef) + ONE_M_SUFFIX }

  datatype Decoded = Decoded(providerId: string, providerModel: string, forceReasoningOff: bool, oneMContext: bool)

  function Decode(name: string): Option<Decoded> {
    var oneM := EndsWith(name, ONE_M_SUFFIX);
    var outer := Partition(StripOneM(name));
    if !outer.separated then None
    else if outer.head != GATEWAY_MODEL_ID_PREFIX && outer.head != NO_THINKING_GATEWAY_MODEL_ID_PREFIX then None
    else
      var inner := Partition(outer.tail);
      if !inner.separated || inner.tail == "" then None
      else Some(Decoded(inner.head, inner.tail, outer.head != GATEWAY_MODEL_ID_PREFIX, oneM))
  }

  /** Decoding undoes both encoders, and takes a 1M suffix, whoever put it there, for the mark of a long context. */
  lemma DecodeEncoded(prefix: string, p: string, m: string)
    requires prefix == GATEWAY_MODEL_ID_PREFIX || prefix == NO_THINKING_GATEWAY_MODEL_ID_PREFIX
    requires '/' !in p
    ensures Decode(prefix + "/" + (p + "/" + m))
            == if StripOneM(m) == "" then None
               else Some(Decoded(p, StripOneM(m), prefix == NO_THINKING_GATEWAY_MODEL_ID_PREFIX,
                                 EndsWith(m, ONE_M_SUFFIX)))
  {
    PrefixesHaveNoSlash();
    SuffixIsInTail(prefix, p + "/" + m);
    SuffixIsInTail(p, m);
    PartitionAtSlash(prefix, p + "/" + StripOneM(m));
    PartitionAtSlash(p, StripOneM(m));
  }

  lemma PrefixesHaveNoSlash()
    ensures '/' !in GATEWAY_MODEL_ID_PREFIX && '/' !in NO_THINKING_GATEWAY_MODEL_ID_PREFIX
    ensures GATEWAY_MODEL_ID_PREFIX != NO_THINKING_GATEWAY_MODEL_ID_PREFIX
  {
    assert GATEWAY_MODEL_ID_PREFIX[0] == 'a' && NO_THINKING_GATEWAY_MODEL_ID_PREFIX[0] == 'c';
  }

  lemma FirstHaveNoSlash(p: string)
    requires p in FIRST_PROVIDER_IDS
    ensures '/' !in p
  {
  }

  lemma LastHaveNoSlash(p: string)
    requires p in LAST_PROVIDER_IDS
    ensures '/' !in p
  {
  }

  lemma ProvidersHaveNoSlash(p: string)
    requires Supported(p)
    ensures '/' !in p
  {
    if p in FIRST_PROVIDER_IDS { FirstHaveNoSlash(p); } else { LastHaveNoSlash(p); }
  }

  lemma ProvidersAreNoPrefixes(p: string)
    requires Supported(p)
    ensures p != GATEWAY_MODEL_ID_PREFIX && p != NO_THINKING_GATEWAY_MODEL_ID_PREFIX
  {
    assert GATEWAY_MODEL_ID_PREFIX[0] == 'a' && |GATEWAY_MODEL_ID_PREFIX| == 9;
    assert p[0] == 'a' ==> |p| == 12;
    assert |NO_THINKING_GATEWAY_MODEL_ID_PREFIX| == 27 && |p| < 27;
  }

  /** No provider's id has a slash or is one of the prefixes. */
  lemma ProvidersAreDistinguishable(p: string)
    requires Supported(p)
    ensures '/' !in p && p != GATEWAY_MODEL_ID_PREFIX && p != NO_THINKING_GATEWAY_MODEL_ID_PREFIX
  {
    ProvidersHaveNoSlash(p);
    ProvidersAreNoPrefixes(p);
  }

  // --- Routing ---

  datatype Preference = Off | Inherited(policy: string)

  /** ByTier: the name is no id of ours, and the configured route of its tier decides. */
  datatype Resolution = ToProvider(providerId: string, providerModel: string, reasoning: Preference) | ByTier

  datatype Direct = Direct(providerId: string, providerModel: string, forceReasoningOff: bool)

  function DirectProviderModel(name: string): Option<Direct> {
    match Decode(name)
    case Some(d) =>
      if Supported(d.providerId) then Some(Direct(d.providerId, d.providerModel, d.forceReasoningOff)) else None
    case None =>
      var parts := Partition(name);
      if !parts.separated || !Supported(parts.head) || parts.tail == "" then None
      else Some(Direct(parts.head, StripOneM(parts.tail), false))
  }

  function Resolve(name: string, policy: Preference): Resolution {
    match DirectProviderModel(name)
    case Some(d) => ToProvider(d.providerId, d.providerModel, if d.forceReasoningOff then Off else policy)
    case None => ByTier
  }

  /** Only supported providers are routed to; any other name is left to the route of its tier. */
  lemma OnlySupportedProviders(name: string, policy: Preference)
    ensures Resolve(name, policy).ToProvider? ==> Supported(Resolve(name, policy).providerId)
    ensures '/' !in name ==> Resolve(name, policy).ByTier?
  {
    NoSlashNoParts(name);
    NoSlashNoParts(StripOneM(name));
  }

  lemma {:induction false} NoSlashNoParts(s: string)
    ensures Partition(s).separated ==> '/' in s
  {
    if s != "" && s[0] != '/' { NoSlashNoParts(s[1..]); }
  }

  /** A listed id leads back to its provider and model exactly if the model's own name does not end in the 1M suffix. */
  lemma EncodedIdsResolve(p: string, m: string, policy: Preference)
    requires Supported(p) && m != ""
    ensures Resolve(GatewayModelId(p + "/" + m), policy) == ToProvider(p, m, policy) <==> !EndsWith(m, ONE_M_SUFFIX)
    ensures Resolve(NoThinkingGatewayModelId(p + "/" + m), policy) == ToProvider(p, m, Off)
            <==> !EndsWith(m, ONE_M_SUFFIX)
  {
    ProvidersAreDistinguishable(p);
    PrefixesHaveNoSlash();
    DecodeEncoded(GATEWAY_MODEL_ID_PREFIX, p, m);
    DecodeEncoded(NO_THINKING_GATEWAY_MODEL_ID_PREFIX, p, m);
    assert StripOneM(m) == m <==> !EndsWith(m, ONE_M_SUFFIX);
    PartitionAtSlash(GATEWAY_MODEL_ID_PREFIX, p + "/" + m);
    PartitionAtSlash(NO_THINKING_GATEWAY_MODEL_ID_PREFIX, p + "/" + m);
    PrefixesAreNoProviders();
  }

  lemma PrefixesAreNoProviders()
    ensures !Supported(GATEWAY_MODEL_ID_PREFIX) && !Supported(NO_THINKING_GATEWAY_MODEL_ID_PREFIX)
  {
    if Supported(GATEWAY_MODEL_ID_PREFIX) { ProvidersAreDistinguishable(GATEWAY_MODEL_ID_PREFIX); }
    if Supported(NO_THINKING_GATEWAY_MODEL_ID_PREFIX) {
      ProvidersAreDistinguishable(NO_THINKING_GATEWAY_MODEL_ID_PREFIX);
    }
  }

  /** The 1M id always does: exactly the suffix it added is stripped. */
  lemma OneMIdsResolve(p: string, m: string, policy: Preference)
    requires Supported(p) && m != ""
    ensures Resolve(OneMGatewayModelId(p + "/" + m), policy) == ToProvider(p, m, policy)
  {
    ProvidersAreDistinguishable(p);
    PrefixesHaveNoSlash();
    assert OneMGatewayModelId(p + "/" + m) == GATEWAY_MODEL_ID_PREFIX + "/" + (p + "/" + (m + ONE_M_SUFFIX));
    DecodeEncoded(GATEWAY_MODEL_ID_PREFIX, p, m + ONE_M_SUFFIX);
    StripAppended(m);
  }

  /** A bare reference, and one with the 1M suffix. */
  lemma BareRefsResolve(p: string, m: string, policy: Preference)
    requires Supported(p) && m != ""
    ensures Resolve(p + "/" + m, policy) == ToProvider(p, StripOneM(m), policy)
    ensures Resolve(p + "/" + (m + ONE_M_SUFFIX), policy) == ToProvider(p, m, policy)
  {
    ProvidersAreDistinguishable(p);
    SuffixIsInTail(p, m);
    SuffixIsInTail(p, m + ONE_M_SUFFIX);
    PartitionAtSlash(p, m);
    PartitionAtSlash(p, StripOneM(m));
    PartitionAtSlash(p, m + ONE_M_SUFFIX);
    StripAppended(m);
  }

  /** The smallest counterexample: the id of a model whose name ends in the suffix leads to another model. */
  lemma SuffixedModelIsLost(policy: Preference)
    ensures Resolve(GatewayModelId("zai/x[1m]"), policy) == ToProvider("zai", "x", policy)
  {
    assert Supported("zai") by { assert LAST_PROVIDER_IDS[10] == "zai"; }
    assert "zai/x[1m]" == "zai" + "/" + ("x" + ONE_M_SUFFIX);
    assert GatewayModelId("zai/x[1m]") == OneMGatewayModelId("zai" + "/" + "x");
    OneMIdsResolve("zai", "x", policy);
  }

  // --- The Codex catalog ---

  datatype Candidate = Candidate(slug: string, modelRef: string, displayName: string, forceNoThinking: bool)

  predicate IsProviderModelRef(value: string) {
    var parts := Partition(value);
    parts.separated && parts.tail != "" && Supported(parts.head)
  }

  function CandidateFrom(modelId: string, displayName: string): Option<Candidate> {
    var parts := Partition(modelId);
    if !parts.separated then None
    else if parts.head == GATEWAY_MODEL_ID_PREFIX then
      if IsProviderModelRef(parts.tail) then Some(Candidate(parts.tail, parts.tail, displayName, false)) else None
    else if parts.head == NO_THINKING_GATEWAY_MODEL_ID_PREFIX then
      if IsProviderModelRef(parts.tail) then Some(Candidate(modelId, parts.tail, displayName, true)) else None
    else if Supported(parts.head) && parts.tail != "" then Some(Candidate(modelId, modelId, displayName, false))
    else None
  }

  /** The slug Codex sends back leads to the model it was derived from, exactly where the listed id does. */
  lemma CodexSlugsResolve(p: string, m: string, displayName: string, policy: Preference)
    requires Supported(p) && m != ""
    ensures SlugResolves(GatewayModelId(p + "/" + m), displayName, policy, ToProvider(p, m, policy))
            <==> !EndsWith(m, ONE_M_SUFFIX)
    ensures SlugResolves(NoThinkingGatewayModelId(p + "/" + m), displayName, policy, ToProvider(p, m, Off))
            <==> !EndsWith(m, ONE_M_SUFFIX)
    ensures SlugResolves(p + "/" + m, displayName, policy, ToProvider(p, m, policy))
            <==> !EndsWith(m, ONE_M_SUFFIX)
    ensures SlugResolves(OneMGatewayModelId(p + "/" + m), displayName, policy, ToProvider(p, m, policy))
  {
    GatewaySlugResolves(p, m, displayName, policy);
    NoThinkingSlugResolves(p, m, displayName, policy);
    OneMSlugResolves(p, m, displayName, policy);
    BareSlugResolves(p, m, displayName, policy);
  }

  lemma GatewaySlugResolves(p: string, m: string, displayName: string, policy: Preference)
    requires Supported(p) && m != ""
    ensures SlugResolves(GatewayModelId(p + "/" + m), displayName, policy, ToProvider(p, m, policy))
            <==> !EndsWith(m, ONE_M_SUFFIX)
  {
    BareRefsResolve(p, m, policy);
    GatewaySlug(p, m, displayName);
  }

  lemma NoThinkingSlugResolves(p: string, m: string, displayName: string, policy: Preference)
    requires Supported(p) && m != ""
    ensures SlugResolves(NoThinkingGatewayModelId(p + "/" + m), displayName, policy, ToProvider(p, m, Off))
            <==> !EndsWith(m, ONE_M_SUFFIX)
  {
    EncodedIdsResolve(p, m, policy);
    NoThinkingSlug(p, m, displayName);
  }

  lemma BareSlugResolves(p: string, m: string, displayName: string, policy: Preference)
    requires Supported(p) && m != ""
    ensures SlugResolves(p + "/" + m, displayName, policy, ToProvider(p, m, policy))
            <==> !EndsWith(m, ONE_M_SUFFIX)
  {
    BareRefsResolve(p, m, policy);
    BareSlug(p, m, displayName);
  }

  lemma OneMSlugResolves(p: string, m: string, displayName: string, policy: Preference)
    requires Supported(p) && m != ""
    ensures SlugResolves(OneMGatewayModelId(p + "/" + m), displayName, policy, ToProvider(p, m, policy))
  {
    BareRefsResolve(p, m, policy);
    GatewaySlug(p, m + ONE_M_SUFFIX, displayName);
    OneMIsGateway(p, m);
  }

  lemma OneMIsGateway(p: string, m: string)
    ensures OneMGatewayModelId(p + "/" + m) == GatewayModelId(p + "/" + (m + ONE_M_SUFFIX))
  {
    assert p + "/" + m + ONE_M_SUFFIX == p + "/" + (m + ONE_M_SUFFIX);
  }

  predicate SlugResolves(modelId: string, displayName: string, policy: Preference, to: Resolution) {
    var c := CandidateFrom(modelId, displayName);
    c.Some? && Resolve(c.value.slug, policy) == to
  }

  lemma RefIsRef(p: string, m: string)
    requires Supported(p) && m != ""
    ensures IsProviderModelRef(p + "/" + m)
  {
    ProvidersAreDistinguishable(p);
    PartitionAtSlash(p, m);
  }

  lemma GatewaySlug(p: string, m: string, displayName: string)
    requires Supported(p) && m != ""
    ensures CandidateFrom(GatewayModelId(p + "/" + m), displayName)
            == Some(Candidate(p + "/" + m, p + "/" + m, displayName, false))
  {
    RefIsRef(p, m);
    PrefixesHaveNoSlash();
    PartitionAtSlash(GATEWAY_MODEL_ID_PREFIX, p + "/" + m);
  }

  lemma NoThinkingSlug(p: string, m: string, displayName: string)
    requires Supported(p) && m != ""
    ensures var id := NoThinkingGatewayModelId(p + "/" + m);
            CandidateFrom(id, displayName) == Some(Candidate(id, p + "/" + m, displayName, true))
  {
    RefIsRef(p, m);
    PrefixesHaveNoSlash();
    PartitionAtSlash(NO_THINKING_GATEWAY_MODEL_ID_PREFIX, p + "/" + m);
  }

  lemma BareSlug(p: string, m: string, displayName: string)
    requires Supported(p) && m != ""
    ensures CandidateFrom(p + "/" + m, displayName) == Some(Candidate(p + "/" + m, p + "/" + m, displayName, false))
  {
    ProvidersAreDistinguishable(p);
    PartitionAtSlash(p, m);
  }
}
