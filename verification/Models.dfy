/** The immutable records shared by every component of the router. */
module Models {

  datatype Option<+T> = None | Some(value: T)

  datatype Result<+T, +E> = Ok(value: T) | Err(error: E)

  datatype TaskType =
    | CodeAnalysis
    | Refactoring
    | TestGeneration
    | Architecture
    | Debugging
    | KnowledgeAnswering
  {
    function Value(): string {
      match this
      case CodeAnalysis => "code_analysis"
      case Refactoring => "refactoring"
      case TestGeneration => "test_generation"
      case Architecture => "architecture"
      case Debugging => "debugging"
      case KnowledgeAnswering => "knowledge_answering"
    }
  }

  /** The names under which a model's capabilities list the tasks it can do. */
  lemma TaskNames(t: TaskType)
    ensures t.Value() in {"code_analysis", "refactoring", "test_generation", "architecture", "debugging",
                          "knowledge_answering"}
    ensures t.Value() == "code_analysis" <==> t.CodeAnalysis?
    ensures t.Value() == "refactoring" <==> t.Refactoring?
    ensures t.Value() == "test_generation" <==> t.TestGeneration?
    ensures t.Value() == "architecture" <==> t.Architecture?
    ensures t.Value() == "debugging" <==> t.Debugging?
    ensures t.Value() == "knowledge_answering" <==> t.KnowledgeAnswering?
  {
  }

  datatype PrivacyMode = Public | Proprietary | LocalOnly

  datatype CostTier = Free | Cheap | Standard | Premium
  {
    function Rank(): nat {
      match this
      case Free => 0
      case Cheap => 1
      case Standard => 2
      case Premium => 3
    }
  }

  datatype Usage = Usage(inputTokens: int, outputTokens: int, costUsd: real)
  {
    function TotalTokens(): int {
      inputTokens + outputTokens
    }

    predicate NonNegative() {
      0 <= inputTokens && 0 <= outputTokens && 0.0 <= costUsd
    }
  }

  datatype RouterRequest = RouterRequest(
    requestId: string,
    task: TaskType,
    privacy: PrivacyMode,
    estimatedInputTokens: int,
    maxOutputTokens: int,
    allowPremiumFallback: bool,
    requiredCapabilities: set<string>)
  {
    function Capabilities(): set<string> {
      {task.Value()} + requiredCapabilities
    }
  }

  datatype ProviderConfig = ProviderConfig(id: string, enabled: bool, timeoutSeconds: real)

  /** A limit that is None is not enforced. */
  datatype ModelConfig = ModelConfig(
    id: string,
    providerId: string,
    capabilities: set<string>,
    costTier: CostTier,
    priority: int,
    enabled: bool,
    isLocal: bool,
    approvedForProprietary: bool,
    requestsPerMinute: Option<int>,
    requestsPerDay: Option<int>,
    tokensPerMinute: Option<int>,
    tokensPerDay: Option<int>,
    dailyCostLimit: Option<real>,
    inputCostPerMillion: real,
    outputCostPerMillion: real,
    maxRetries: int,
    timeoutSeconds: Option<real>)
  {
    function EstimateCost(inputTokens: int, outputTokens: int): real {
      (inputTokens as real * inputCostPerMillion + outputTokens as real * outputCostPerMillion) / 1000000.0
    }

    predicate Priced() {
      0.0 <= inputCostPerMillion && 0.0 <= outputCostPerMillion
    }

    /** How many passes the retry loop makes at most; none for a negative setting. */
    function Tries(): nat {
      if maxRetries < 0 then 0 else maxRetries + 1
    }
  }

  datatype RouterConfig = RouterConfig(
    providers: map<string, ProviderConfig>,
    models: seq<ModelConfig>,
    backoffBase: real,
    backoffMax: real,
    failureThreshold: int,
    cooldown: real)

  function Max(a: int, b: int): (m: int)
    ensures a <= m && b <= m && (m == a || m == b)
  {
    if a < b then b else a
  }

  function MaxReal(a: real, b: real): (m: real)
    ensures a <= m && b <= m && (m == a || m == b)
  {
    if a < b then b else a
  }

  function MinReal(a: real, b: real): (m: real)
    ensures m <= a && m <= b && (m == a || m == b)
  {
    if a < b then a else b
  }
}
