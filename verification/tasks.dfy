/**
 The closed set of business task categories and the static data attached to
 each: its label, its detection keywords, its place in the priority order, the
 model it is sent to and its output-token budget (backend.py:14-98).
 */
module Tasks {
  import opened Wrappers
  import opened Ranking

  datatype TaskCategory =
    | BusinessStrategy
    | PitchDeck
    | MarketAnalysis
    | FinancialModel
    | BusinessPlan
    | Idea
    | Guide
    | Code
    | Ppt
    | Flowchart
    | Platform
    | Assistant

  /** The label the backend uses for a category as a dictionary key and in replies. */
  function Label(t: TaskCategory): string {
    match t
    case BusinessStrategy => "business_strategy"
    case PitchDeck => "pitch_deck"
    case MarketAnalysis => "market_analysis"
    case FinancialModel => "financial_model"
    case BusinessPlan => "business_plan"
    case Idea => "idea"
    case Guide => "guide"
    case Code => "code"
    case Ppt => "ppt"
    case Flowchart => "flowchart"
    case Platform => "platform"
    case Assistant => "assistant"
  }

  /** The category a label names, if it names one. */
  function ParseLabel(s: string): Option<TaskCategory> {
    if s == "business_strategy" then Some(BusinessStrategy)
    else if s == "pitch_deck" then Some(PitchDeck)
    else if s == "market_analysis" then Some(MarketAnalysis)
    else if s == "financial_model" then Some(FinancialModel)
    else if s == "business_plan" then Some(BusinessPlan)
    else if s == "idea" then Some(Idea)
    else if s == "guide" then Some(Guide)
    else if s == "code" then Some(Code)
    else if s == "ppt" then Some(Ppt)
    else if s == "flowchart" then Some(Flowchart)
    else if s == "platform" then Some(Platform)
    else if s == "assistant" then Some(Assistant)
    else None
  }

  /** Parsing a category's label gives back the category. */
  lemma LabelRoundTrip(t: TaskCategory)
    ensures ParseLabel(Label(t)) == Some(t)
  {
    match t
    case BusinessStrategy =>
    case PitchDeck =>
    case MarketAnalysis =>
    case FinancialModel =>
    case BusinessPlan =>
    case Idea =>
    case Guide =>
    case Code =>
    case Ppt =>
    case Flowchart =>
    case Platform =>
    case Assistant =>
  }

  /** A string parses to a category only if it is that category's label. */
  lemma ParseLabelSound(s: string)
    ensures ParseLabel(s).Some? ==> Label(ParseLabel(s).value) == s
  {
  }

  /** Distinct categories have distinct labels. */
  lemma LabelInjective(t: TaskCategory, u: TaskCategory)
    ensures Label(t) == Label(u) ==> t == u
  {
    LabelRoundTrip(t);
    LabelRoundTrip(u);
  }

  /** The general-purpose model serving every category except code, as owner and name. */
  const LlamaOwner: string := "meta-llama"
  const LlamaName: string := "Llama-3.1-8B-Instruct"
  const LlamaModel: string := LlamaOwner + "/" + LlamaName

  /** The code model, as owner and name. */
  const QwenOwner: string := "Qwen"
  const QwenName: string := "Qwen2.5-Coder-32B-Instruct"
  const QwenModel: string := QwenOwner + "/" + QwenName

  /** MODEL_MAP: the hosted model each label is sent to. */
  const ModelMap: map<string, string> := map[
    "business_strategy" := LlamaModel,
    "pitch_deck" := LlamaModel,
    "market_analysis" := LlamaModel,
    "financial_model" := LlamaModel,
    "business_plan" := LlamaModel,
    "idea" := LlamaModel,
    "guide" := LlamaModel,
    "assistant" := LlamaModel,
    "ppt" := LlamaModel,
    "platform" := LlamaModel,
    "flowchart" := LlamaModel,
    "code" := QwenModel
  ]

  /** TOKEN_MAP: the maximum number of new tokens requested for each label. */
  const TokenMap: map<string, nat> := map[
    "business_strategy" := 1200,
    "pitch_deck" := 1500,
    "market_analysis" := 1200,
    "financial_model" := 1000,
    "business_plan" := 1800,
    "idea" := 800,
    "guide" := 1000,
    "ppt" := 1200,
    "flowchart" := 800,
    "platform" := 600,
    "code" := 1500,
    "assistant" := 800
  ]

  /**
   Both tables are total over the twelve labels and hold no other key, so the
   lookups `MODEL_MAP[task]` and `TOKEN_MAP[task]` cannot raise.
   */
  lemma TablesTotal()
    ensures forall t: TaskCategory :: Label(t) in ModelMap && Label(t) in TokenMap
    ensures forall k :: k in ModelMap ==> ParseLabel(k).Some?
    ensures forall k :: k in TokenMap ==> ParseLabel(k).Some?
  {
    forall t: TaskCategory ensures Label(t) in ModelMap && Label(t) in TokenMap {
      match t
      case BusinessStrategy =>
      case PitchDeck =>
      case MarketAnalysis =>
      case FinancialModel =>
      case BusinessPlan =>
      case Idea =>
      case Guide =>
      case Code =>
      case Ppt =>
      case Flowchart =>
      case Platform =>
      case Assistant =>
    }
  }

  /** The model a category is sent to: the code model for code, the general model otherwise. */
  function ModelFor(t: TaskCategory): (m: string)
    ensures m == QwenModel || m == LlamaModel
  {
    if t == Code then QwenModel else LlamaModel
  }

  /** The new-token budget of a category. */
  function BudgetFor(t: TaskCategory): (n: nat)
    ensures 600 <= n <= 1800
  {
    match t
    case BusinessStrategy => 1200
    case PitchDeck => 1500
    case MarketAnalysis => 1200
    case FinancialModel => 1000
    case BusinessPlan => 1800
    case Idea => 800
    case Guide => 1000
    case Code => 1500
    case Ppt => 1200
    case Flowchart => 800
    case Platform => 600
    case Assistant => 800
  }

  /**
   The lookups `MODEL_MAP[task]` and `TOKEN_MAP[task]` succeed for every
   category and give its model and its budget.
   */
  lemma TableLookups(t: TaskCategory)
    ensures Label(t) in ModelMap && ModelMap[Label(t)] == ModelFor(t)
    ensures Label(t) in TokenMap && TokenMap[Label(t)] == BudgetFor(t)
  {
    match t
    case BusinessStrategy =>
    case PitchDeck =>
    case MarketAnalysis =>
    case FinancialModel =>
    case BusinessPlan =>
    case Idea =>
    case Guide =>
    case Code =>
    case Ppt =>
    case Flowchart =>
    case Platform =>
    case Assistant =>
  }

  /**
   The keyword list tested by substring containment for each category, in the
   order the source tests them. The fallback category has none.
   */
  function Keywords(t: TaskCategory): seq<string> {
    match t
    case BusinessStrategy => ["business", "startup", "company", "venture", "enterprise", "corporate"]
    case PitchDeck => ["pitch", "investor", "deck", "presentation", "vc", "funding", "raise"]
    case MarketAnalysis => ["market", "competitor", "analysis", "research", "trend", "industry"]
    case FinancialModel => ["financial", "revenue", "cost", "profit", "roi", "forecast", "budget", "valuation"]
    case BusinessPlan => ["plan", "strategy", "roadmap", "timeline", "executive", "proposal"]
    case Idea => ["idea", "concept", "innovate"]
    case Guide => ["guide", "mentor", "advice", "help"]
    case Code => ["code", "program", "developer", "software", "algorithm", "function"]
    case Flowchart => ["flow", "architecture", "system", "diagram", "process"]
    case Platform => ["platform", "deploy", "host", "server", "cloud", "infrastructure"]
    case Ppt => ["ppt", "slide", "presentation", "powerpoint", "deck"]
    case Assistant => []
  }

  /** No keyword is the empty string. */
  lemma KeywordsNonEmpty()
    ensures forall t: TaskCategory, w :: w in Keywords(t) ==> |w| > 0
  {
    forall t: TaskCategory, w | w in Keywords(t) ensures |w| > 0 {
      match t
      case BusinessStrategy =>
      case PitchDeck =>
      case MarketAnalysis =>
      case FinancialModel =>
      case BusinessPlan =>
      case Idea =>
      case Guide =>
      case Code =>
      case Flowchart =>
      case Platform =>
      case Ppt =>
      case Assistant =>
    }
  }

  /** The order in which the source tests the categories and appends hits. */
  const DetectionOrder: seq<TaskCategory> :=
    [BusinessStrategy, PitchDeck, MarketAnalysis, FinancialModel, BusinessPlan,
     Idea, Guide, Code, Flowchart, Platform, Ppt]

  /** `priority_order`: earlier categories win when more than two are detected. */
  const PriorityOrder: seq<TaskCategory> :=
    [PitchDeck, BusinessStrategy, FinancialModel, Code, MarketAnalysis, BusinessPlan,
     Idea, Guide, Ppt, Flowchart, Platform, Assistant]

  /** Position of `x` in `s`, or `|s|` when it does not occur (Python's `list.index`). */
  function IndexOf<T(==)>(s: seq<T>, x: T): (k: nat)
    ensures k <= |s|
    ensures k < |s| <==> x in s
    ensures k < |s| ==> s[k] == x
    ensures forall j :: 0 <= j < k ==> s[j] != x
  {
    if s == [] then 0
    else if s[0] == x then 0
    else 1 + IndexOf(s[1..], x)
  }

  /** The sort key `priority_order.index(x) if x in priority_order else 999`. */
  function PriorityKey(t: TaskCategory): nat {
    if t in PriorityOrder then IndexOf(PriorityOrder, t) else 999
  }

  /**
   Every category is in the priority order, so the 999 fallback key is never
   used, and each category's key is its position in that order.
   */
  lemma PriorityKeyIsPosition()
    ensures forall t: TaskCategory :: t in PriorityOrder && PriorityKey(t) < |PriorityOrder|
    ensures forall i :: 0 <= i < |PriorityOrder| ==> PriorityKey(PriorityOrder[i]) == i
    ensures StrictlyBy(PriorityKey, PriorityOrder)
  {
    AllInPriorityOrder();
    PriorityOrderDistinct();
    forall i | 0 <= i < |PriorityOrder| ensures PriorityKey(PriorityOrder[i]) == i {
      IndexOfDistinct(PriorityOrder, i);
    }
  }

  /** Every category occurs in the priority order. */
  lemma AllInPriorityOrder()
    ensures forall t: TaskCategory :: t in PriorityOrder
  {
    forall t: TaskCategory ensures t in PriorityOrder {
      match t
      case BusinessStrategy => assert PriorityOrder[1] == t;
      case PitchDeck => assert PriorityOrder[0] == t;
      case MarketAnalysis => assert PriorityOrder[4] == t;
      case FinancialModel => assert PriorityOrder[2] == t;
      case BusinessPlan => assert PriorityOrder[5] == t;
      case Idea => assert PriorityOrder[6] == t;
      case Guide => assert PriorityOrder[7] == t;
      case Code => assert PriorityOrder[3] == t;
      case Ppt => assert PriorityOrder[8] == t;
      case Flowchart => assert PriorityOrder[9] == t;
      case Platform => assert PriorityOrder[10] == t;
      case Assistant => assert PriorityOrder[11] == t;
    }
  }

  /** No category occurs twice in the priority order. */
  lemma PriorityOrderDistinct()
    ensures Distinct(PriorityOrder)
  {
  }

  /** In a sequence without repetitions, the index of an element is its position. */
  lemma IndexOfDistinct<T>(s: seq<T>, i: nat)
    requires Distinct(s) && i < |s|
    ensures IndexOf(s, s[i]) == i
  {
  }

  /** Distinct categories have distinct sort keys. */
  lemma PriorityKeyInjective(t: TaskCategory, u: TaskCategory)
    ensures PriorityKey(t) == PriorityKey(u) ==> t == u
  {
    AllInPriorityOrder();
    assert t in PriorityOrder && u in PriorityOrder;
    assert PriorityOrder[PriorityKey(t)] == t;
    assert PriorityOrder[PriorityKey(u)] == u;
  }

  /**
   The detection order lists every category except the fallback exactly once,
   and a category has keywords exactly when it is not the fallback.
   */
  lemma DetectionOrderCoversKeywordCategories()
    ensures forall t: TaskCategory :: t in DetectionOrder <==> t != Assistant
    ensures forall t: TaskCategory :: Keywords(t) == [] <==> t == Assistant
    ensures Distinct(DetectionOrder)
  {
    forall t: TaskCategory ensures t in DetectionOrder <==> t != Assistant {
      match t
      case BusinessStrategy => assert DetectionOrder[0] == t;
      case PitchDeck => assert DetectionOrder[1] == t;
      case MarketAnalysis => assert DetectionOrder[2] == t;
      case FinancialModel => assert DetectionOrder[3] == t;
      case BusinessPlan => assert DetectionOrder[4] == t;
      case Idea => assert DetectionOrder[5] == t;
      case Guide => assert DetectionOrder[6] == t;
      case Code => assert DetectionOrder[7] == t;
      case Flowchart => assert DetectionOrder[8] == t;
      case Platform => assert DetectionOrder[9] == t;
      case Ppt => assert DetectionOrder[10] == t;
      case Assistant =>
    }
  }
}
