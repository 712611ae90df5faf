/** The registry of models: the policy filter and the order in which eligible models are tried. */
module Registry {
  import opened Models

  // ---- unique identifiers ----

  ghost predicate UniqueIds(models: seq<ModelConfig>) {
    forall i, j :: 0 <= i < j < |models| ==> models[i].id != models[j].id
  }

  function IdSet(models: seq<ModelConfig>): set<string> {
    set i | 0 <= i < |models| :: models[i].id
  }

  lemma {:induction false} IdSetSize(models: seq<ModelConfig>)
    ensures |IdSet(models)| <= |models|
    ensures |IdSet(models)| == |models| <==> UniqueIds(models)
  {
    if |models| == 0 {
      assert IdSet(models) == {};
    } else {
      var n := |models| - 1;
      IdSetSize(models[..n]);
      IdSetLast(models);
    }
  }

  lemma IdSetLast(models: seq<ModelConfig>)
    requires |models| != 0
    ensures var n := |models| - 1;
            && IdSet(models) == IdSet(models[..n]) + {models[n].id}
            && (models[n].id in IdSet(models[..n]) <==> exists i :: 0 <= i < n && models[i].id == models[n].id)
  {
    var n := |models| - 1;
    assert forall i :: 0 <= i < n ==> models[..n][i] == models[i];
    forall id | id in IdSet(models)
      ensures id in IdSet(models[..n]) + {models[n].id}
    {
      var i :| 0 <= i < |models| && models[i].id == id;
      assert i == n || models[..n][i].id == id;
    }
  }

  datatype ModelRegistry = ModelRegistry(models: seq<ModelConfig>)

  /** Construction compares the number of identifiers with the number of distinct ones. */
  function Create(models: seq<ModelConfig>): (r: Result<ModelRegistry, string>)
    ensures r.Ok? <==> UniqueIds(models)
    ensures r.Ok? ==> r.value.models == models
  {
    IdSetSize(models);
    if |models| != |IdSet(models)| then Err("Model IDs must be unique") else Ok(ModelRegistry(models))
  }

  // ---- the policy filter ----

  predicate Permits(model: ModelConfig, request: RouterRequest) {
    && model.enabled
    && request.Capabilities() <= model.capabilities
    && (model.costTier.Premium? ==> request.allowPremiumFallback)
    && (request.privacy.LocalOnly? ==> model.isLocal)
    && (request.privacy.Proprietary? ==> model.isLocal || model.approvedForProprietary)
  }

  /** The policy in terms of the request: enabled; every capability asked for, the task's own included; premium
      only if allowed; local code stays local; proprietary code goes to local or approved models. */
  ghost predicate MeetsPolicy(m: ModelConfig, request: RouterRequest) {
    && m.enabled
    && request.task.Value() in m.capabilities
    && (forall c :: c in request.requiredCapabilities ==> c in m.capabilities)
    && (m.costTier == Premium ==> request.allowPremiumFallback)
    && (request.privacy == LocalOnly ==> m.isLocal)
    && (request.privacy == Proprietary ==> m.isLocal || m.approvedForProprietary)
  }

  lemma PermitsIffPolicy(m: ModelConfig, request: RouterRequest)
    ensures Permits(m, request) <==> MeetsPolicy(m, request)
  {
    assert forall c :: c in request.Capabilities() <==> c == request.task.Value() || c in request.requiredCapabilities;
  }

  function Keep<T>(s: seq<T>, p: T -> bool): seq<T> {
    if |s| == 0 then []
    else Keep(s[..|s| - 1], p) + (if p(s[|s| - 1]) then [s[|s| - 1]] else [])
  }

  function PermittedBy(request: RouterRequest): ModelConfig -> bool {
    (m: ModelConfig) => Permits(m, request)
  }

  // ---- the four-part sort key ----

  datatype Key = Key(rank: nat, priority: int, cost: real, id: string)

  function KeyOf(m: ModelConfig, request: RouterRequest): Key {
    Key(m.costTier.Rank(), m.priority, m.EstimateCost(request.estimatedInputTokens, request.maxOutputTokens), m.id)
  }

  predicate StringBefore(a: string, b: string) {
    |b| != 0 && (|a| == 0 || a[0] < b[0] || (a[0] == b[0] && StringBefore(a[1..], b[1..])))
  }

  predicate KeyBefore(a: Key, b: Key) {
    a.rank < b.rank
    || (a.rank == b.rank &&
        (a.priority < b.priority
         || (a.priority == b.priority &&
             (a.cost < b.cost || (a.cost == b.cost && StringBefore(a.id, b.id))))))
  }

  predicate Before(a: ModelConfig, b: ModelConfig, request: RouterRequest) {
    KeyBefore(KeyOf(a, request), KeyOf(b, request))
  }

  lemma {:induction false} StringOrder(a: string, b: string, c: string)
    ensures !StringBefore(a, a)
    ensures StringBefore(a, b) && StringBefore(b, c) ==> StringBefore(a, c)
    ensures a != b ==> StringBefore(a, b) || StringBefore(b, a)
    decreases |a| + |b| + |c|
  {
    if |a| != 0 {
      StringOrder(a[1..], if |b| != 0 then b[1..] else [], if |c| != 0 then c[1..] else []);
      if |b| != 0 && a != b && a[0] == b[0] {
        assert a == [a[0]] + a[1..] && b == [b[0]] + b[1..];
      }
    }
  }

  /** The key is a strict total order on models with different identifiers. */
  lemma KeyOrder(a: Key, b: Key, c: Key)
    ensures !KeyBefore(a, a)
    ensures KeyBefore(a, b) && KeyBefore(b, c) ==> KeyBefore(a, c)
    ensures a.id != b.id ==> KeyBefore(a, b) || KeyBefore(b, a)
  {
    StringOrder(a.id, b.id, c.id);
  }

  ghost predicate StrictlySorted(s: seq<ModelConfig>, request: RouterRequest) {
    forall i, j :: 0 <= i < j < |s| ==> Before(s[i], s[j], request)
  }

  // ---- sorting ----

  function Insert(m: ModelConfig, s: seq<ModelConfig>, request: RouterRequest): seq<ModelConfig> {
    if |s| == 0 || Before(m, s[0], request) then [m] + s else [s[0]] + Insert(m, s[1..], request)
  }

  function Sorted(s: seq<ModelConfig>, request: RouterRequest): seq<ModelConfig> {
    if |s| == 0 then [] else Insert(s[|s| - 1], Sorted(s[..|s| - 1], request), request)
  }

  function EligibleModels(models: seq<ModelConfig>, request: RouterRequest): seq<ModelConfig> {
    Sorted(Keep(models, PermittedBy(request)), request)
  }

  method Eligible(registry: ModelRegistry, request: RouterRequest) returns (eligible: seq<ModelConfig>)
    ensures eligible == EligibleModels(registry.models, request)
    ensures forall m :: m in eligible <==> m in registry.models && MeetsPolicy(m, request)
  {
    EligibleMembers(registry.models, request);
    var required := request.Capabilities();
    var candidates: seq<ModelConfig> := [];
    for i := 0 to |registry.models|
      invariant candidates == Keep(registry.models[..i], PermittedBy(request))
    {
      var model := registry.models[i];
      assert registry.models[..i + 1][..i] == registry.models[..i];
      if !model.enabled || !(required <= model.capabilities) {
        continue;
      }
      if model.costTier.Premium? && !request.allowPremiumFallback {
        continue;
      }
      if request.privacy.LocalOnly? && !model.isLocal {
        continue;
      }
      if request.privacy.Proprietary? && !(model.isLocal || model.approvedForProprietary) {
        continue;
      }
      candidates := candidates + [model];
    }
    assert registry.models[..|registry.models|] == registry.models;
    eligible := Sorted(candidates, request);
  }

  /** The eligible models of the enabled providers, in order. */
  function EnabledIn(config: RouterConfig): ModelConfig -> bool {
    (m: ModelConfig) => m.providerId in config.providers && config.providers[m.providerId].enabled
  }

  function CandidateModels(config: RouterConfig, request: RouterRequest): seq<ModelConfig> {
    Keep(EligibleModels(config.models, request), EnabledIn(config))
  }

  // ---- what Keep and Sorted do ----

  lemma {:induction false} KeepMembers<T>(s: seq<T>, p: T -> bool)
    ensures forall x :: x in Keep(s, p) <==> x in s && p(x)
  {
    if |s| != 0 {
      KeepMembers(s[..|s| - 1], p);
      assert forall x :: x in s <==> x in s[..|s| - 1] || x == s[|s| - 1];
    }
  }

  lemma {:induction false} KeepSorted(s: seq<ModelConfig>, p: ModelConfig -> bool, request: RouterRequest)
    requires StrictlySorted(s, request)
    ensures StrictlySorted(Keep(s, p), request)
  {
    if |s| != 0 {
      var front := s[..|s| - 1];
      KeepSorted(front, p, request);
      KeepMembers(front, p);
      forall i | 0 <= i < |Keep(front, p)|
        ensures Before(Keep(front, p)[i], s[|s| - 1], request)
      {
        assert Keep(front, p)[i] in front;
      }
    }
  }

  lemma {:induction false} KeepUnique(s: seq<ModelConfig>, p: ModelConfig -> bool)
    requires UniqueIds(s)
    ensures UniqueIds(Keep(s, p))
  {
    if |s| != 0 {
      var front := s[..|s| - 1];
      KeepUnique(front, p);
      KeepMembers(front, p);
      forall i | 0 <= i < |Keep(front, p)|
        ensures Keep(front, p)[i].id != s[|s| - 1].id
      {
        assert Keep(front, p)[i] in front;
      }
    }
  }

  lemma {:induction false} InsertSorted(m: ModelConfig, s: seq<ModelConfig>, request: RouterRequest)
    requires StrictlySorted(s, request) && forall x :: x in s ==> x.id != m.id
    ensures StrictlySorted(Insert(m, s, request), request)
    ensures forall x :: x in Insert(m, s, request) <==> x in s || x == m
  {
    if |s| != 0 {
      if Before(m, s[0], request) {
        forall j | 0 < j < |s|
          ensures Before(m, s[j], request)
        {
          KeyOrder(KeyOf(m, request), KeyOf(s[0], request), KeyOf(s[j], request));
        }
      } else {
        KeyOrder(KeyOf(m, request), KeyOf(s[0], request), KeyOf(m, request));
        assert s[0] in s;
        InsertSorted(m, s[1..], request);
        var rest := Insert(m, s[1..], request);
        assert forall x :: x in s <==> x == s[0] || x in s[1..];
        forall j | 0 <= j < |rest|
          ensures Before(s[0], rest[j], request)
        {
          assert rest[j] in rest;
        }
      }
    }
  }

  lemma {:induction false} SortedIsSorted(s: seq<ModelConfig>, request: RouterRequest)
    requires UniqueIds(s)
    ensures StrictlySorted(Sorted(s, request), request)
    ensures forall x :: x in Sorted(s, request) <==> x in s
  {
    if |s| != 0 {
      var front := s[..|s| - 1];
      SortedIsSorted(front, request);
      InsertSorted(s[|s| - 1], Sorted(front, request), request);
      assert forall x :: x in s <==> x in front || x == s[|s| - 1];
    }
  }

  /** A strictly sorted sequence is determined by its members. */
  lemma {:induction false} SortedUnique(a: seq<ModelConfig>, b: seq<ModelConfig>, request: RouterRequest)
    requires StrictlySorted(a, request) && StrictlySorted(b, request)
    requires forall x :: x in a <==> x in b
    ensures a == b
  {
    assert |a| == 0 || a[0] in a;
    assert |b| == 0 || b[0] in b;
    if |a| != 0 {
      HeadIsFirst(a, b[0], request);
      HeadIsFirst(b, a[0], request);
      KeyOrder(KeyOf(a[0], request), KeyOf(b[0], request), KeyOf(a[0], request));
      assert a[0] == b[0];
      NotAgain(a, request);
      NotAgain(b, request);
      assert forall x :: x in a <==> x == a[0] || x in a[1..];
      assert forall x :: x in b <==> x == b[0] || x in b[1..];
      SortedUnique(a[1..], b[1..], request);
    }
  }

  lemma HeadIsFirst(a: seq<ModelConfig>, x: ModelConfig, request: RouterRequest)
    requires StrictlySorted(a, request) && x in a
    ensures x == a[0] || Before(a[0], x, request)
  {
    var i :| 0 <= i < |a| && a[i] == x;
  }

  lemma NotAgain(a: seq<ModelConfig>, request: RouterRequest)
    requires StrictlySorted(a, request) && |a| != 0
    ensures a[0] !in a[1..]
  {
    KeyOrder(KeyOf(a[0], request), KeyOf(a[0], request), KeyOf(a[0], request));
  }

  // ---- the laws of the candidate order ----

  lemma {:induction false} InsertMembers(m: ModelConfig, s: seq<ModelConfig>, request: RouterRequest)
    ensures forall x :: x in Insert(m, s, request) <==> x in s || x == m
  {
    if |s| != 0 && !Before(m, s[0], request) {
      InsertMembers(m, s[1..], request);
      assert forall x :: x in s <==> x == s[0] || x in s[1..];
    }
  }

  lemma {:induction false} SortedMembers(s: seq<ModelConfig>, request: RouterRequest)
    ensures forall x :: x in Sorted(s, request) <==> x in s
  {
    if |s| != 0 {
      SortedMembers(s[..|s| - 1], request);
      InsertMembers(s[|s| - 1], Sorted(s[..|s| - 1], request), request);
      assert forall x :: x in s <==> x in s[..|s| - 1] || x == s[|s| - 1];
    }
  }

  lemma EligibleMembers(models: seq<ModelConfig>, request: RouterRequest)
    ensures forall m :: m in EligibleModels(models, request) <==> m in models && MeetsPolicy(m, request)
  {
    hide MeetsPolicy, Permits;
    SortedMembers(Keep(models, PermittedBy(request)), request);
    KeepMembers(models, PermittedBy(request));
    forall m: ModelConfig {
      PermitsIffPolicy(m, request);
    }
  }

  /** a and b agree before place k, and there a ends or has the smaller character. */
  ghost predicate FirstDifference(a: string, b: string, k: nat) {
    && k <= |a| && k < |b|
    && (forall i :: 0 <= i < k ==> a[i] == b[i])
    && (k == |a| || a[k] < b[k])
  }

  /** Identifiers compare by their first difference, and a proper prefix comes first. */
  ghost predicate Ascending(a: string, b: string) {
    exists k :: FirstDifference(a, b, k)
  }

  lemma SameHead(a: string, b: string)
    requires |a| != 0 && |b| != 0 && a[0] == b[0]
    ensures Ascending(a, b) <==> Ascending(a[1..], b[1..])
  {
    forall k: nat | FirstDifference(a, b, k)
      ensures k != 0 && FirstDifference(a[1..], b[1..], k - 1)
    {
    }
    forall k: nat | FirstDifference(a[1..], b[1..], k)
      ensures FirstDifference(a, b, k + 1)
    {
    }
  }

  lemma OtherHead(a: string, b: string)
    requires |a| == 0 || |b| == 0 || a[0] != b[0]
    ensures Ascending(a, b) <==> |b| != 0 && (|a| == 0 || a[0] < b[0])
  {
    assert forall k: nat :: FirstDifference(a, b, k) ==> k == 0;
    assert FirstDifference(a, b, 0) <==> |b| != 0 && (|a| == 0 || a[0] < b[0]);
  }

  lemma {:induction false} StringBeforeAscends(a: string, b: string)
    ensures StringBefore(a, b) <==> Ascending(a, b)
  {
    hide Ascending;
    if |a| != 0 && |b| != 0 && a[0] == b[0] {
      SameHead(a, b);
      StringBeforeAscends(a[1..], b[1..]);
    } else {
      OtherHead(a, b);
    }
  }

  /** What a call of m is reckoned to cost for the request's own token figures. */
  ghost function Reckoned(m: ModelConfig, request: RouterRequest): real {
    (request.estimatedInputTokens as real * m.inputCostPerMillion
     + request.maxOutputTokens as real * m.outputCostPerMillion) / 1000000.0
  }

  /** Free before cheap before standard before premium; on a tie the lower priority number, then the lower
      reckoned cost, then the identifier. */
  ghost predicate TriedBefore(a: ModelConfig, b: ModelConfig, request: RouterRequest) {
    || (a.costTier == Free && b.costTier != Free)
    || (a.costTier == Cheap && (b.costTier == Standard || b.costTier == Premium))
    || (a.costTier == Standard && b.costTier == Premium)
    || (a.costTier == b.costTier &&
        (|| a.priority < b.priority
         || (a.priority == b.priority &&
             (|| Reckoned(a, request) < Reckoned(b, request)
              || (Reckoned(a, request) == Reckoned(b, request) && Ascending(a.id, b.id))))))
  }

  lemma BeforeIffTriedBefore(a: ModelConfig, b: ModelConfig, request: RouterRequest)
    ensures Before(a, b, request) <==> TriedBefore(a, b, request)
  {
    hide StringBefore, Ascending;
    StringBeforeAscends(a.id, b.id);
  }

  /** Exactly the permitted models, strictly in key order. */
  lemma EligibleIsSortedFilter(models: seq<ModelConfig>, request: RouterRequest)
    requires UniqueIds(models)
    ensures StrictlySorted(EligibleModels(models, request), request)
    ensures forall m :: m in EligibleModels(models, request) <==> m in models && Permits(m, request)
    ensures forall m :: m in EligibleModels(models, request) <==> m in models && MeetsPolicy(m, request)
    ensures var e := EligibleModels(models, request); forall i, j :: 0 <= i < j < |e| ==> TriedBefore(e[i], e[j], request)
  {
    hide StringBefore, TriedBefore, MeetsPolicy;
    EligibleMembers(models, request);
    forall a: ModelConfig, b: ModelConfig {
      BeforeIffTriedBefore(a, b, request);
    }
    KeepUnique(models, PermittedBy(request));
    KeepMembers(models, PermittedBy(request));
    SortedIsSorted(Keep(models, PermittedBy(request)), request);
  }

  /** The order in the configuration file does not matter. */
  lemma ConfigurationOrderIrrelevant(a: seq<ModelConfig>, b: seq<ModelConfig>, request: RouterRequest)
    requires UniqueIds(a) && UniqueIds(b) && forall m :: m in a <==> m in b
    ensures EligibleModels(a, request) == EligibleModels(b, request)
  {
    EligibleIsSortedFilter(a, request);
    EligibleIsSortedFilter(b, request);
    SortedUnique(EligibleModels(a, request), EligibleModels(b, request), request);
  }

  function Strictness(p: PrivacyMode): nat {
    match p
    case Public => 0
    case Proprietary => 1
    case LocalOnly => 2
  }

  /** The tighter request has the same token figures and asks for at least as much. */
  predicate Tightens(tight: RouterRequest, loose: RouterRequest) {
    && tight.estimatedInputTokens == loose.estimatedInputTokens
    && tight.maxOutputTokens == loose.maxOutputTokens
    && loose.Capabilities() <= tight.Capabilities()
    && (tight.allowPremiumFallback ==> loose.allowPremiumFallback)
    && Strictness(loose.privacy) <= Strictness(tight.privacy)
  }

  /** Tightening the policy only removes candidates: what is left keeps its order. */
  lemma TighteningOnlyRemoves(models: seq<ModelConfig>, tight: RouterRequest, loose: RouterRequest)
    requires UniqueIds(models) && Tightens(tight, loose)
    ensures EligibleModels(models, tight) == Keep(EligibleModels(models, loose), PermittedBy(tight))
  {
    EligibleIsSortedFilter(models, tight);
    EligibleIsSortedFilter(models, loose);
    KeepSorted(EligibleModels(models, loose), PermittedBy(tight), loose);
    KeepMembers(EligibleModels(models, loose), PermittedBy(tight));
    assert forall a, b :: Before(a, b, tight) <==> Before(a, b, loose);
    SortedUnique(EligibleModels(models, tight), Keep(EligibleModels(models, loose), PermittedBy(tight)), tight);
  }

  /** Candidates: the permitted models of enabled providers, strictly in key order, so with tier ranks
      that never decrease, and premium only if the request allows it. */
  lemma CandidatesInOrder(config: RouterConfig, request: RouterRequest)
    requires UniqueIds(config.models)
    ensures var c := CandidateModels(config, request);
            && StrictlySorted(c, request)
            && UniqueIds(c)
            && (forall m :: m in c <==> m in config.models && Permits(m, request) && EnabledIn(config)(m))
            && (forall m :: m in c <==> m in config.models && MeetsPolicy(m, request)
                                        && m.providerId in config.providers && config.providers[m.providerId].enabled)
            && (forall i, j :: 0 <= i < j < |c| ==> TriedBefore(c[i], c[j], request))
            && (forall i, j :: 0 <= i < j < |c| ==> c[i].costTier.Rank() <= c[j].costTier.Rank())
            && (forall i, j :: 0 <= i < j < |c| && c[i].costTier == c[j].costTier ==> c[i].priority <= c[j].priority)
            && (forall i, j :: 0 <= i < j < |c| && c[i].costTier == c[j].costTier && c[i].priority == c[j].priority ==>
                  c[i].EstimateCost(request.estimatedInputTokens, request.maxOutputTokens)
                  <= c[j].EstimateCost(request.estimatedInputTokens, request.maxOutputTokens))
            && (forall i :: 0 <= i < |c| && c[i].costTier.Premium? ==> request.allowPremiumFallback)
  {
    hide CandidateModels, StrictlySorted, Permits, MeetsPolicy, TriedBefore;
    var c := CandidateModels(config, request);
    CandidatesFiltered(config, request);
    CandidatesSorted(config, request);
    assert forall i :: 0 <= i < |c| ==> c[i] in c;
    forall i, j | 0 <= i < j < |c|
      ensures c[i].costTier.Rank() <= c[j].costTier.Rank()
      ensures c[i].costTier == c[j].costTier ==> c[i].priority <= c[j].priority
      ensures c[i].costTier == c[j].costTier && c[i].priority == c[j].priority ==>
                c[i].EstimateCost(request.estimatedInputTokens, request.maxOutputTokens)
                <= c[j].EstimateCost(request.estimatedInputTokens, request.maxOutputTokens)
    {
      KeyOfEarlier(c[i], c[j], request);
    }
    forall i | 0 <= i < |c| && c[i].costTier.Premium?
      ensures request.allowPremiumFallback
    {
      PremiumOnlyIfAllowed(c[i], request);
    }
  }

  lemma KeyOfEarlier(a: ModelConfig, b: ModelConfig, request: RouterRequest)
    requires TriedBefore(a, b, request)
    ensures a.costTier.Rank() <= b.costTier.Rank()
    ensures a.costTier == b.costTier ==> a.priority <= b.priority
    ensures a.costTier == b.costTier && a.priority == b.priority ==>
              a.EstimateCost(request.estimatedInputTokens, request.maxOutputTokens)
              <= b.EstimateCost(request.estimatedInputTokens, request.maxOutputTokens)
  {
    hide Ascending;
  }

  lemma PremiumOnlyIfAllowed(m: ModelConfig, request: RouterRequest)
    requires MeetsPolicy(m, request) && m.costTier.Premium?
    ensures request.allowPremiumFallback
  {
  }

  lemma CandidatesFiltered(config: RouterConfig, request: RouterRequest)
    ensures forall m :: m in CandidateModels(config, request) <==>
              m in config.models && Permits(m, request) && EnabledIn(config)(m)
    ensures forall m :: m in CandidateModels(config, request) <==>
              && m in config.models && MeetsPolicy(m, request)
              && m.providerId in config.providers && config.providers[m.providerId].enabled
  {
    hide MeetsPolicy, Permits, EligibleModels, Keep;
    EligibleMembers(config.models, request);
    KeepMembers(EligibleModels(config.models, request), EnabledIn(config));
    forall m: ModelConfig {
      PermitsIffPolicy(m, request);
    }
  }

  lemma CandidatesSorted(config: RouterConfig, request: RouterRequest)
    requires UniqueIds(config.models)
    ensures var c := CandidateModels(config, request);
            && StrictlySorted(c, request) && UniqueIds(c)
            && forall i, j :: 0 <= i < j < |c| ==> TriedBefore(c[i], c[j], request)
  {
    hide Sorted, Keep, StringBefore, EligibleModels, MeetsPolicy, Permits, TriedBefore;
    var e, c := EligibleModels(config.models, request), CandidateModels(config, request);
    EligibleIsSortedFilter(config.models, request);
    KeepSorted(e, EnabledIn(config), request);
    KeepMembers(e, EnabledIn(config));
    SortedHasUniqueIds(config.models, c, request);
    forall i, j | 0 <= i < j < |c|
      ensures TriedBefore(c[i], c[j], request)
    {
      BeforeIffTriedBefore(c[i], c[j], request);
    }
  }

  lemma SortedHasUniqueIds(models: seq<ModelConfig>, c: seq<ModelConfig>, request: RouterRequest)
    requires UniqueIds(models) && StrictlySorted(c, request) && forall m :: m in c ==> m in models
    ensures UniqueIds(c)
  {
    forall i, j | 0 <= i < j < |c|
      ensures c[i].id != c[j].id
    {
      assert c[i] in c && c[j] in c && Before(c[i], c[j], request);
      KeyOrder(KeyOf(c[i], request), KeyOf(c[i], request), KeyOf(c[i], request));
      DistinctById(models, c[i], c[j]);
    }
  }

  lemma DistinctById(models: seq<ModelConfig>, a: ModelConfig, b: ModelConfig)
    requires UniqueIds(models) && a in models && b in models
    ensures a.id == b.id ==> a == b
  {
    var i :| 0 <= i < |models| && models[i] == a;
    var j :| 0 <= j < |models| && models[j] == b;
    assert a.id == b.id ==> i == j;
  }

  /** Disabling providers only removes candidates. */
  lemma DisablingOnlyRemoves(config: RouterConfig, fewer: RouterConfig, request: RouterRequest)
    requires UniqueIds(config.models) && fewer.models == config.models
    requires forall m: ModelConfig :: EnabledIn(fewer)(m) ==> EnabledIn(config)(m)
    ensures CandidateModels(fewer, request) == Keep(CandidateModels(config, request), EnabledIn(fewer))
  {
    CandidatesInOrder(config, request);
    CandidatesInOrder(fewer, request);
    KeepSorted(CandidateModels(config, request), EnabledIn(fewer), request);
    KeepMembers(CandidateModels(config, request), EnabledIn(fewer));
    SortedUnique(CandidateModels(fewer, request), Keep(CandidateModels(config, request), EnabledIn(fewer)), request);
  }
}
