/** The record types of the garden: languages, health statuses, chat turns, timeline
    updates, tool results, tool catalog entries and plant identifications. The ranges
    that the type declarations give only as comments are subset types here. */
module Types {
  import opened Options

  // ---------------------------------------------------------------- Language

  /** The two interface languages. */
  datatype Language = En | Bn

  /** The wire form of a language, as stored in a record and sent to the AI service. */
  function LanguageCode(l: Language): (code: string)
    ensures code == "en" || code == "bn"
    ensures code == "en" <==> l == En
  {
    match l
    case En => "en"
    case Bn => "bn"
  }

  /** Reading a language code back; only the two codes are languages. */
  function ParseLanguage(code: string): (r: Option<Language>)
    ensures r.Some? <==> code == "en" || code == "bn"
    ensures r.Some? ==> LanguageCode(r.value) == code
  {
    if code == "en" then Some(En)
    else if code == "bn" then Some(Bn)
    else None
  }

  lemma LanguageCodeRoundTrip(l: Language)
    ensures ParseLanguage(LanguageCode(l)) == Some(l)
  {
  }

  // ---------------------------------------------------------------- Health status

  /** The diagnostic status of a plant. */
  datatype PlantHealthStatus = Healthy | Diseased | PestInfested | NutrientDeficient | Unknown

  /** The string values of the status enumeration, in declaration order. */
  const StatusLabels: seq<string> := ["Healthy", "Diseased", "Pest Infested", "Nutrient Deficient", "Unknown"]

  function StatusLabel(s: PlantHealthStatus): (name: string)
    ensures name in StatusLabels
    ensures name == "Healthy" <==> s == Healthy
  {
    match s
    case Healthy => "Healthy"
    case Diseased => "Diseased"
    case PestInfested => "Pest Infested"
    case NutrientDeficient => "Nutrient Deficient"
    case Unknown => "Unknown"
  }

  /** The enumeration member whose string value is `text`, if there is one. */
  function ParseStatus(text: string): (r: Option<PlantHealthStatus>)
    ensures r.Some? <==> text in StatusLabels
    ensures r.Some? ==> StatusLabel(r.value) == text
  {
    if text == "Healthy" then Some(Healthy)
    else if text == "Diseased" then Some(Diseased)
    else if text == "Pest Infested" then Some(PestInfested)
    else if text == "Nutrient Deficient" then Some(NutrientDeficient)
    else if text == "Unknown" then Some(Unknown)
    else None
  }

  /** The five string values are pairwise distinct, so the enumeration has exactly five members. */
  lemma StatusLabelsDistinct()
    ensures |StatusLabels| == 5
    ensures forall i, j :: 0 <= i < j < |StatusLabels| ==> StatusLabels[i] != StatusLabels[j]
  {
  }

  lemma StatusLabelRoundTrip(s: PlantHealthStatus)
    ensures ParseStatus(StatusLabel(s)) == Some(s)
  {
  }

  // ---------------------------------------------------------------- Chat

  /** Who wrote a chat turn. */
  datatype ChatRole = User | Model

  function RoleCode(r: ChatRole): (code: string)
    ensures code == "user" || code == "model"
    ensures code == "user" <==> r == User
  {
    match r
    case User => "user"
    case Model => "model"
  }

  function ParseRole(code: string): (r: Option<ChatRole>)
    ensures r.Some? <==> code == "user" || code == "model"
    ensures r.Some? ==> RoleCode(r.value) == code
  {
    if code == "user" then Some(User)
    else if code == "model" then Some(Model)
    else None
  }

  datatype ChatMessage = ChatMessage(role: ChatRole, text: string, timestamp: int)

  // ---------------------------------------------------------------- Timeline and tools

  /** One growth-timeline entry. */
  datatype PlantUpdate = PlantUpdate(
    id: string,
    timestamp: int,
    imageUrl: string,
    growthAnalysis: string,
    healthStatus: string)

  /** A tool score: 0 to 100, or -1 for "not applicable". */
  type ToolScore = x: int | x == -1 || 0 <= x <= 100

  const NotApplicable: ToolScore := -1

  /** A percentage, the range of a plant's health score. */
  type Percent = x: int | 0 <= x <= 100

  datatype ToolResult = ToolResult(
    toolId: string,
    timestamp: int,
    imageUrl: string,
    title: string,
    score: Option<ToolScore>,
    status: string,
    analysis: string,
    actionPlan: seq<string>,
    prediction: Option<string>)

  /** Whether a tool result has a score to show: present and not the "not applicable" value. */
  function HasScore(t: ToolResult): (b: bool)
    ensures b ==> t.score.Some? && 0 <= t.score.value <= 100
    ensures !b ==> t.score == None || t.score == Some(NotApplicable)
  {
    t.score.Some? && t.score.value > -1
  }

  /** The five tool categories. */
  datatype ToolCategory = HealthTools | CareTools | EnvironmentTools | GrowthTools | FunTools

  const CategoryIds: seq<string> := ["health", "care", "environment", "growth", "fun"]

  function CategoryId(c: ToolCategory): (id: string)
    ensures id in CategoryIds
  {
    match c
    case HealthTools => "health"
    case CareTools => "care"
    case EnvironmentTools => "environment"
    case GrowthTools => "growth"
    case FunTools => "fun"
  }

  function ParseCategory(id: string): (r: Option<ToolCategory>)
    ensures r.Some? <==> id in CategoryIds
    ensures r.Some? ==> CategoryId(r.value) == id
  {
    if id == "health" then Some(HealthTools)
    else if id == "care" then Some(CareTools)
    else if id == "environment" then Some(EnvironmentTools)
    else if id == "growth" then Some(GrowthTools)
    else if id == "fun" then Some(FunTools)
    else None
  }

  lemma CategoryIdRoundTrip(c: ToolCategory)
    ensures ParseCategory(CategoryId(c)) == Some(c)
  {
  }

  /** A catalog entry of the toolbox. */
  datatype PlantTool = PlantTool(
    id: string,
    name: string,
    description: string,
    iconName: string,
    category: ToolCategory,
    cameraInstruction: string,
    aiSystemPrompt: string)

  // ---------------------------------------------------------------- Identification

  /** The fields the AI service produces and nothing in the garden ever changes
      (names, taxonomy, care, safety, diagnostics, ...), kept as one value. */
  datatype Report = Report(
    scientificName: string,
    commonNames: seq<string>,
    diagnosis: PlantHealthStatus,
    rest: string)

  /** One identified plant in the garden. */
  datatype PlantIdentification = PlantIdentification(
    id: string,
    timestamp: int,
    imageUrl: string,
    language: Language,
    healthScore: Percent,
    report: Report,
    updates: Option<seq<PlantUpdate>>,
    chatHistory: Option<seq<ChatMessage>>,
    toolHistory: Option<seq<ToolResult>>)
}
