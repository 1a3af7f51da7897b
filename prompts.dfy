/** The three prompt templates of the analysis endpoint and the rule that picks
    one from the request's `currencyType`. Each template is assembled from the
    pieces it shares with the others, so that the facts the handler relies on
    (the Spanish-only opening, the fixed `currencyType` field) are visible in
    the structure of the text. */
module Prompts {
  import opened Common

  datatype Template = CoinTemplate | BillTemplate | AutoTemplate

  /** The value `currencyType` takes when the request body omits it. */
  const DefaultCurrencyType := "auto"

  /** The instruction every template opens with. */
  const LanguageRule := "IMPORTANTE: Responde ÚNICAMENTE en español."

  /** The rarity tiers the coin template asks the model to choose from. */
  const CoinRarityTiers := ["Muy Común", "Común", "Poco Común", "Escasa", "Rara", "Muy Rara", "Extremadamente Rara"]

  /** The rarity tiers the bill and auto templates ask the model to choose from. */
  const BillRarityTiers := ["Muy Común", "Común", "Poco Común", "Escaso", "Raro", "Muy Raro", "Extremadamente Raro"]

  /** The market-demand tiers every template asks the model to choose from. */
  const SpanishDemandTiers := ["Baja", "Moderada", "Alta", "Muy Alta"]

  /** The template the handler's if/else-if/else chain selects: `coin` and
      `bill` have their own, and every other value, the default included,
      falls through to the auto-detect template. */
  function SelectTemplate(currencyType: Option<string>): (t: Template)
    ensures t == CoinTemplate <==> currencyType == Some("coin")
    ensures t == BillTemplate <==> currencyType == Some("bill")
    ensures t == AutoTemplate <==> currencyType != Some("coin") && currencyType != Some("bill")
  {
    var mode := if currencyType.Some? then currencyType.value else DefaultCurrencyType;
    if mode == "coin" then CoinTemplate
    else if mode == "bill" then BillTemplate
    else AutoTemplate
  }

  function Join(parts: seq<string>, sep: string): string
    decreases |parts|
  {
    if |parts| == 0 then ""
    else if |parts| == 1 then parts[0]
    else parts[0] + sep + Join(parts[1..], sep)
  }

  /** The rarity tiers a template offers the model. */
  function RarityTiersAsked(t: Template): seq<string>
  {
    if t == CoinTemplate then CoinRarityTiers else BillRarityTiers
  }

  /** The `"currencyType"` line of a template's JSON schema. */
  function CurrencyTypeLine(t: Template): string
  {
    match t
    case CoinTemplate => CoinTypeLine
    case BillTemplate => BillTypeLine
    case AutoTemplate => EitherTypeLine
  }

  const CoinTypeLine := "  \"currencyType\": \"coin\",\n"
  const BillTypeLine := "  \"currencyType\": \"bill\",\n"
  const EitherTypeLine := "  \"currencyType\": \"coin\" o \"bill\",\n"

  function Intro(t: Template): string
  {
    match t
    case CoinTemplate =>
      " Analiza esta imagen de moneda y proporciona información detallada en formato JSON COMPLETAMENTE EN ESPAÑOL:"
    case BillTemplate =>
      " Analiza esta imagen de billete/papel moneda y proporciona información detallada en formato JSON COMPLETAMENTE EN ESPAÑOL:"
    case AutoTemplate =>
      " Analiza esta imagen de moneda (podría ser una moneda o billete) y proporciona información detallada en formato JSON COMPLETAMENTE EN ESPAÑOL. Primero determina si es una moneda o billete, luego proporciona el análisis apropiado:"
  }

  function NameLine(t: Template): string
  {
    match t
    case CoinTemplate => "  \"currencyName\": \"Nombre completo de la moneda en español\",\n"
    case BillTemplate => "  \"currencyName\": \"Nombre completo del billete en español (ej: Billete de $2 Estados Unidos 1976)\",\n"
    case AutoTemplate => "  \"currencyName\": \"Nombre completo de la moneda en español\",\n"
  }

  /** What follows the opening instruction, up to the `"currencyType"` line. */
  function Lead(t: Template): string
  {
    Intro(t) + "\n\n{\n" + NameLine(t)
  }

  const CountryYearLines :=
    "  \"country\": \"País de origen\",\n" +
    "  \"year\": año (número),\n"

  const EstimatedValueLines :=
    "  \"estimatedValue\": {\n" +
    "    \"low\": número,\n" +
    "    \"average\": número,\n" +
    "    \"high\": número,\n" +
    "    \"currency\": \"USD\"\n" +
    "  },\n"

  const GradingLines :=
    "  \"grading\": {\n" +
    "    \"grade\": \"Abreviación del grado\",\n" +
    "    \"details\": \"Explicación de la condición en español\"\n" +
    "  },\n"

  const KeyFeaturesLine :=
    "  \"keyFeatures\": [\"característica1 en español\", \"característica2 en español\", \"característica3 en español\"],\n"

  const RarityFactorsLine := "  \"rarityFactors\": [\"factor1 en español\", \"factor2 en español\"],\n"

  const CollectionTipsLine := "  \"collectionTips\": [\"consejo1 en español\", \"consejo2 en español\"],\n"

  const InvestmentLine := "  \"investmentPotential\": \"Potencial de inversión a largo plazo en español\",\n"

  const SellingLines :=
    "  \"whereToSell\": [\"lugar1 en español\", \"lugar2 en español\"],\n" +
    "  \"tipsToMaximizeValue\": [\"consejo1 en español\", \"consejo2 en español\"]\n"

  function RarityLine(t: Template): string
  {
    "  \"rarity\": \"" + Join(RarityTiersAsked(t), "/") + "\",\n"
  }

  const DemandLine := "  \"marketDemand\": \"" + Join(SpanishDemandTiers, "/") + "\",\n"

  /** The schema lines after `"currencyType"`, up to and including `"rarity"`. */
  function IdentityLines(t: Template): string
  {
    match t
    case CoinTemplate =>
      CountryYearLines +
      "  \"mint\": \"Casa de moneda y marca\",\n" +
      "  \"composition\": \"Composición del metal\",\n" +
      RarityLine(t)
    case BillTemplate =>
      CountryYearLines +
      "  \"series\": \"Año de la serie si aplica\",\n" +
      "  \"denomination\": \"Valor nominal (ej: $1, $5, $20)\",\n" +
      "  \"serialNumber\": \"Número de serie si es visible\",\n" +
      RarityLine(t)
    case AutoTemplate =>
      CountryYearLines +
      "  \"series\": \"Año de la serie si aplica (solo billetes)\",\n" +
      "  \"mint\": \"Casa de moneda y marca (solo monedas)\",\n" +
      "  \"denomination\": \"Valor nominal (billetes) o denominación (monedas)\",\n" +
      "  \"serialNumber\": \"Número de serie si es visible (solo billetes)\",\n" +
      "  \"composition\": \"Composición del metal (solo monedas)\",\n" +
      RarityLine(t)
  }

  /** The schema lines from `"condition"` to the end of the object. */
  function AppraisalLines(t: Template): string
  {
    match t
    case CoinTemplate =>
      "  \"condition\": \"Grado estimado (ej: VF-20, EF-40, MS-60)\",\n" +
      EstimatedValueLines + DemandLine +
      "  \"description\": \"Descripción breve de la moneda en español\",\n" +
      KeyFeaturesLine + GradingLines + RarityFactorsLine +
      "  \"historicalContext\": \"Contexto histórico detallado en español\",\n" +
      CollectionTipsLine +
      "  \"marketTrends\": \"Tendencias actuales del mercado en español\",\n" +
      InvestmentLine + SellingLines
    case BillTemplate =>
      "  \"condition\": \"Grado estimado (ej: Bueno, Muy Fino, Extremadamente Fino, Sin Circular)\",\n" +
      "  \"printingErrors\": [\"error1 en español\", \"error2 en español\"] o [],\n" +
      EstimatedValueLines + DemandLine +
      "  \"description\": \"Descripción breve del billete en español\",\n" +
      KeyFeaturesLine + GradingLines + RarityFactorsLine +
      "  \"historicalContext\": \"Contexto histórico detallado y significado en español\",\n" +
      CollectionTipsLine +
      "  \"marketTrends\": \"Tendencias actuales del mercado de billetes en español\",\n" +
      InvestmentLine +
      "  \"signatures\": \"Funcionarios que firmaron el billete en español\",\n" +
      "  \"securityFeatures\": [\"característica1 en español\", \"característica2 en español\"],\n" +
      SellingLines
    case AutoTemplate =>
      "  \"condition\": \"Grado estimado\",\n" +
      "  \"printingErrors\": [\"error1 en español\", \"error2 en español\"] o [] (solo billetes),\n" +
      EstimatedValueLines + DemandLine +
      "  \"description\": \"Descripción breve en español\",\n" +
      KeyFeaturesLine + GradingLines + RarityFactorsLine +
      "  \"historicalContext\": \"Contexto histórico detallado en español\",\n" +
      CollectionTipsLine +
      "  \"marketTrends\": \"Tendencias actuales del mercado en español\",\n" +
      InvestmentLine +
      "  \"signatures\": \"Funcionarios que firmaron (solo billetes) en español\",\n" +
      "  \"securityFeatures\": [\"característica1 en español\", \"característica2 en español\"] (solo billetes),\n" +
      SellingLines
  }

  function Closing(t: Template): string
  {
    "CRUCIAL: Todo el contenido debe estar en español. No uses inglés en ninguna parte de la respuesta. " +
    match t
    case CoinTemplate =>
      "Sé específico sobre el año, marcas de casa de moneda y detalles visibles. Proporciona estimaciones de valor precisas basadas en datos actuales del mercado numismático."
    case BillTemplate =>
      "Sé específico sobre la serie, números de serie, firmas y errores de impresión. Busca billetes estrella, billetes de reemplazo u otras características especiales."
    case AutoTemplate =>
      "Proporciona análisis preciso y estimaciones de valor basadas en datos actuales del mercado de colección."
  }

  /** Everything after the `"currencyType"` line. */
  function Tail(t: Template): string
  {
    IdentityLines(t) + AppraisalLines(t) + "}\n\n" + Closing(t)
  }

  /** The full text of a template: it opens with the Spanish-only
      instruction, and it holds the template's own `"currencyType"` line. */
  function PromptText(t: Template): (text: string)
    ensures StartsWith(text, LanguageRule)
    ensures Occurs(text, CurrencyTypeLine(t))
  {
    PrefixOf(LanguageRule, Lead(t) + CurrencyTypeLine(t) + Tail(t));
    InMiddle(LanguageRule, Lead(t), CurrencyTypeLine(t), Tail(t));
    LanguageRule + (Lead(t) + CurrencyTypeLine(t) + Tail(t))
  }

  /** The coin template fixes `"currencyType": "coin"`. */
  lemma CoinPromptFixesCoin()
    ensures Occurs(PromptText(CoinTemplate), CoinTypeLine)
  {
    assert CurrencyTypeLine(CoinTemplate) == CoinTypeLine;
  }

  /** The bill template fixes `"currencyType": "bill"`. */
  lemma BillPromptFixesBill()
    ensures Occurs(PromptText(BillTemplate), BillTypeLine)
  {
    assert CurrencyTypeLine(BillTemplate) == BillTypeLine;
  }

  /** The auto template leaves the choice between coin and bill to the model. */
  lemma AutoPromptOffersBoth()
    ensures Occurs(PromptText(AutoTemplate), EitherTypeLine)
  {
    assert CurrencyTypeLine(AutoTemplate) == EitherTypeLine;
  }

  /** The `"currencyType"` line of the selected template follows the mode:
      `coin` and `bill` fix it, every other mode leaves the choice to the
      model. With `PromptText`'s contract, the prompt sent for a mode holds
      that line. */
  lemma SelectedTypeLine(currencyType: Option<string>)
    ensures currencyType == Some("coin") ==> CurrencyTypeLine(SelectTemplate(currencyType)) == CoinTypeLine
    ensures currencyType == Some("bill") ==> CurrencyTypeLine(SelectTemplate(currencyType)) == BillTypeLine
    ensures currencyType != Some("coin") && currencyType != Some("bill") ==>
              CurrencyTypeLine(SelectTemplate(currencyType)) == EitherTypeLine
  {
  }
}
