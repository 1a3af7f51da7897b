/** The React component of src/CoinValueEstimator.js: its two colour tables
    and the state it keeps between renders (`image`, `analyzing`, `result`,
    `error`, `currencyType`), driven by uploads, the analysis request and the
    "Subir Otra" button.

    `fetch`, `FileReader` and the response's `json()` are not modelled as I/O:
    an upload hands over the data URL the reader produced, and an analysis is
    split at its `await` into `StartAnalysis`, which returns the request body
    it sends, and `FinishAnalysis`, which takes what the request came back
    with. Nothing ties a finish to the start it answers, as in the component. */
module Estimator {
  import opened Common

  /** The rarity tiers the component has colours for, in the table's order. */
  const EnglishRarityTiers := ["Very Common", "Common", "Uncommon", "Scarce", "Rare", "Very Rare", "Extremely Rare"]

  /** The demand tiers the component has colours for, in the table's order. */
  const EnglishDemandTiers := ["Low", "Moderate", "High", "Very High"]

  const DefaultRarityClass := "bg-gray-600"
  const DefaultDemandClass := "text-gray-400"

  /** `getRarityColor`'s `colors` object. */
  const RarityClasses: map<string, string> := map[
    "Very Common" := "bg-gray-600",
    "Common" := "bg-green-600",
    "Uncommon" := "bg-blue-600",
    "Scarce" := "bg-yellow-600",
    "Rare" := "bg-orange-600",
    "Very Rare" := "bg-red-600",
    "Extremely Rare" := "bg-purple-600"
  ]

  /** `getDemandColor`'s `colors` object. */
  const DemandClasses: map<string, string> := map[
    "Low" := "text-gray-400",
    "Moderate" := "text-blue-400",
    "High" := "text-green-400",
    "Very High" := "text-orange-400"
  ]

  /** `colors[key] || fallback`: the table's entry when it has a non-empty
      one, the fallback otherwise. */
  function LookupOr(colors: map<string, string>, key: string, fallback: string): string
  {
    if key in colors && colors[key] != "" then colors[key] else fallback
  }

  /** `getRarityColor`: the table's class for a tier it lists, the gray
      default for anything else. */
  function RarityColor(rarity: string): (colour: string)
    ensures rarity in RarityClasses ==> colour == RarityClasses[rarity]
    ensures rarity !in RarityClasses ==> colour == DefaultRarityClass
  {
    LookupOr(RarityClasses, rarity, DefaultRarityClass)
  }

  /** `getDemandColor`: the table's class for a tier it lists, the gray
      default for anything else. */
  function DemandColor(demand: string): (colour: string)
    ensures demand in DemandClasses ==> colour == DemandClasses[demand]
    ensures demand !in DemandClasses ==> colour == DefaultDemandClass
  {
    LookupOr(DemandClasses, demand, DefaultDemandClass)
  }

  /** Each of the seven English rarity tiers gets its own fixed class, and a
      rarity outside them gets the gray default. */
  lemma RarityColorTable(rarity: string)
    ensures rarity == "Very Common" ==> RarityColor(rarity) == "bg-gray-600"
    ensures rarity == "Common" ==> RarityColor(rarity) == "bg-green-600"
    ensures rarity == "Uncommon" ==> RarityColor(rarity) == "bg-blue-600"
    ensures rarity == "Scarce" ==> RarityColor(rarity) == "bg-yellow-600"
    ensures rarity == "Rare" ==> RarityColor(rarity) == "bg-orange-600"
    ensures rarity == "Very Rare" ==> RarityColor(rarity) == "bg-red-600"
    ensures rarity == "Extremely Rare" ==> RarityColor(rarity) == "bg-purple-600"
    ensures rarity !in EnglishRarityTiers ==> RarityColor(rarity) == DefaultRarityClass
  {
  }

  /** Two different tiers share a colour only when one of them is "Very
      Common", which shares the default's gray. */
  lemma RarityColorsDistinct(a: string, b: string)
    requires a in EnglishRarityTiers && b in EnglishRarityTiers && a != b
    requires a != "Very Common" && b != "Very Common"
    ensures RarityColor(a) != RarityColor(b)
    ensures RarityColor(a) != DefaultRarityClass
  {
  }

  /** Each of the four demand tiers gets its own fixed class, and a demand
      outside them gets the gray default. */
  lemma DemandColorTable(demand: string)
    ensures demand == "Low" ==> DemandColor(demand) == "text-gray-400"
    ensures demand == "Moderate" ==> DemandColor(demand) == "text-blue-400"
    ensures demand == "High" ==> DemandColor(demand) == "text-green-400"
    ensures demand == "Very High" ==> DemandColor(demand) == "text-orange-400"
    ensures demand !in EnglishDemandTiers ==> DemandColor(demand) == DefaultDemandClass
  {
  }

  /** The modes the three selector buttons set. */
  const Modes := ["auto", "coin", "bill"]

  const ConnectionMessage :=
    "No se puede conectar al servidor de análisis. Por favor asegúrate de que el backend esté funcionando."
  const FallbackMessage := "Error al analizar la moneda o billete. Por favor inténtalo de nuevo."
  const RequestFailedMessage := "Failed to analyze image"
  const NotSuccessMessage := "Failed to analyze coin"

  /** What `response.json()` yields: the fields the component reads
      (`success`, `data`, `error`; `false`, absent and `""` alike when
      missing), or the message it rejects with. */
  datatype Payload<J> = Payload(success: bool, data: Option<J>, error: string) | Unreadable(message: string)

  /** How the `fetch` ends: rejected with a message, or a response with its
      `ok` flag and its body. */
  datatype FetchOutcome<J> = Rejected(message: string) | Received(ok: bool, payload: Payload<J>)

  /** The request body `analyzeCoinWithAI` posts. */
  datatype AnalysisRequest = AnalysisRequest(imageData: string, currencyType: string)

  /** The message of the error the `try` block throws, or `None` when it
      completes with a result. */
  function ThrownMessage<J>(outcome: FetchOutcome<J>): (m: Option<string>)
    ensures m.None? <==> outcome.Received? && outcome.ok && outcome.payload.Payload? && outcome.payload.success
    ensures outcome.Rejected? ==> m == Some(outcome.message)
    ensures outcome.Received? && outcome.payload.Unreadable? ==> m == Some(outcome.payload.message)
    ensures outcome.Received? && !outcome.ok && outcome.payload.Payload? ==>
              m == Some(if outcome.payload.error != "" then outcome.payload.error else RequestFailedMessage)
    ensures outcome.Received? && outcome.ok && outcome.payload.Payload? && !outcome.payload.success ==>
              m == Some(NotSuccessMessage)
  {
    match outcome
    case Rejected(message) => Some(message)
    case Received(ok, payload) =>
      if payload.Unreadable? then Some(payload.message)
      else if !ok then Some(if payload.error != "" then payload.error else RequestFailedMessage)
      else if payload.success then None
      else Some(NotSuccessMessage)
  }

  /** The text the `catch` block puts in `error`. */
  function ErrorText(message: string): (text: string)
    ensures text != ""
    ensures Includes(message, "fetch") ==> text == ConnectionMessage
    ensures !Includes(message, "fetch") && message != "" ==> text == message
    ensures message == "" ==> text == FallbackMessage
  {
    if Includes(message, "fetch") then ConnectionMessage
    else if message != "" then message
    else FallbackMessage
  }

  /** A message without a lowercase `f` cannot mention `fetch`. */
  lemma NoLetterFNoFetch(message: string)
    requires 'f' !in message
    ensures !Includes(message, "fetch")
  {
    forall i | 0 <= i && i + 5 <= |message|
      ensures !OccursAt(message, "fetch", i)
    {
      assert message[i..i + 5][0] == message[i];
    }
  }

  /** The two messages the component throws itself are shown as they are. */
  lemma OwnMessagesShownAsIs()
    ensures ErrorText(RequestFailedMessage) == RequestFailedMessage
    ensures ErrorText(NotSuccessMessage) == NotSuccessMessage
  {
    NoLetterFNoFetch(RequestFailedMessage);
    NoLetterFNoFetch(NotSuccessMessage);
  }

  /** How an analysis settles: the result to show, or the error text. */
  datatype Settlement<J> = ShowResult(data: Option<J>) | ShowError(text: string)

  /** What the rest of `analyzeCoinWithAI` makes of the request's outcome. */
  function Settle<J>(outcome: FetchOutcome<J>): (s: Settlement<J>)
    ensures s.ShowResult? <==> outcome.Received? && outcome.ok && outcome.payload.Payload? && outcome.payload.success
    ensures s.ShowResult? ==> s.data == outcome.payload.data
    ensures s.ShowError? ==> s.text != ""
    ensures outcome.Rejected? ==> s == ShowError(ErrorText(outcome.message))
    ensures outcome.Received? && outcome.payload.Unreadable? ==> s == ShowError(ErrorText(outcome.payload.message))
    ensures outcome.Received? && !outcome.ok && outcome.payload.Payload? && outcome.payload.error != "" ==>
              s == ShowError(ErrorText(outcome.payload.error))
    ensures outcome.Received? && !outcome.ok && outcome.payload.Payload? && outcome.payload.error == "" ==>
              s == ShowError(RequestFailedMessage)
    ensures outcome.Received? && outcome.ok && outcome.payload.Payload? && !outcome.payload.success ==>
              s == ShowError(NotSuccessMessage)
  {
    OwnMessagesShownAsIs();
    match ThrownMessage(outcome)
    case None => ShowResult(outcome.payload.data)
    case Some(message) => ShowError(ErrorText(message))
  }

  /** A `fetch` that cannot reach the server rejects with a message naming
      `fetch`, and the component then shows the connection message. */
  lemma UnreachableServerShowsConnectionMessage<J>(message: string)
    requires Includes(message, "fetch")
    ensures Settle<J>(Rejected(message)) == ShowError(ConnectionMessage)
    ensures Settle<J>(Received(false, Unreadable(message))) == ShowError(ConnectionMessage)
  {
  }

  class CurrencyValueEstimator<J> {
    var image: Option<string>
    var analyzing: bool
    var result: Option<J>
    var error: Option<string>
    var currencyType: string

    /** While the spinner shows, neither a result nor an error is shown, and
        the mode is one the buttons offer. */
    ghost predicate Valid()
      reads this
    {
      (analyzing ==> result.None? && error.None?) && currencyType in Modes
    }

    /** The initial `useState` values. */
    constructor ()
      ensures Valid()
      ensures image.None? && !analyzing && result.None? && error.None? && currencyType == "auto"
    {
      image := None;
      analyzing := false;
      result := None;
      error := None;
      currencyType := "auto";
    }

    /** One of the three mode buttons, rendered only while no image is shown:
        `setCurrencyType(mode)`. */
    method SelectCurrencyType(mode: string)
      requires Valid()
      requires image.None?
      requires mode in Modes
      modifies this
      ensures Valid()
      ensures currencyType == mode
      ensures image == old(image) && analyzing == old(analyzing)
      ensures result == old(result) && error == old(error)
    {
      currencyType := mode;
    }

    /** The synchronous part of `analyzeCoinWithAI`: raise the spinner, clear
        the result and the error, then send the request. */
    method StartAnalysis(imageData: string) returns (request: AnalysisRequest)
      requires Valid()
      modifies this
      ensures Valid()
      ensures analyzing && result.None? && error.None?
      ensures image == old(image) && currencyType == old(currencyType)
      ensures request == AnalysisRequest(imageData, currencyType)
    {
      analyzing := true;
      result := None;
      error := None;
      request := AnalysisRequest(imageData, currencyType);
    }

    /** The part of `analyzeCoinWithAI` after the `await`s: set the result on
        success, the error text otherwise, and lower the spinner whatever the
        outcome (`finally`). */
    method FinishAnalysis(outcome: FetchOutcome<J>)
      requires Valid()
      modifies this
      ensures Valid()
      ensures !analyzing
      ensures Settle(outcome).ShowResult? ==> result == Settle(outcome).data && error == old(error)
      ensures Settle(outcome).ShowError? ==> error == Some(Settle(outcome).text) && result == old(result)
      ensures image == old(image) && currencyType == old(currencyType)
    {
      var thrown: Option<string> := None;
      match outcome {
        case Rejected(message) =>
          thrown := Some(message);
        case Received(ok, payload) =>
          if payload.Unreadable? {
            thrown := Some(payload.message);
          } else if !ok {
            thrown := Some(if payload.error != "" then payload.error else RequestFailedMessage);
          } else if payload.success {
            result := payload.data;
          } else {
            thrown := Some(NotSuccessMessage);
          }
      }
      if thrown.Some? {
        error := Some(ErrorText(thrown.value));
      }
      analyzing := false;
    }

    /** `handleImageUpload` with the reader's `onload`, on the file inputs
        rendered only while no image is shown: no file changes nothing; a
        file's data URL becomes the image and is analysed. */
    method HandleImageUpload(file: Option<string>) returns (request: Option<AnalysisRequest>)
      requires Valid()
      requires image.None?
      modifies this
      ensures Valid()
      ensures file.None? ==> request.None? && image == old(image) && analyzing == old(analyzing)
                             && result == old(result) && error == old(error)
      ensures file.Some? ==> image == file && analyzing && result.None? && error.None?
                             && request == Some(AnalysisRequest(file.value, currencyType))
      ensures currencyType == old(currencyType)
    {
      request := None;
      if file.Some? {
        image := file;
        var sent := StartAnalysis(file.value);
        request := Some(sent);
      }
    }

    /** The "Subir Otra" button, rendered only while an image is shown: drop
        the image and the result, keep the error, the spinner and the mode. */
    method Reset()
      requires Valid()
      requires image.Some?
      modifies this
      ensures Valid()
      ensures image.None? && result.None?
      ensures error == old(error) && analyzing == old(analyzing) && currencyType == old(currencyType)
    {
      image := None;
      result := None;
    }
  }

  /** An analysis that runs alone (started, then finished with nothing in
      between) never sets both `result` and `error`. It sets an error exactly
      when the outcome settles as one; otherwise it sets a result exactly when
      the body carries `data`, and a success body without it sets neither.
      Whether a set result is drawn depends on its truthiness, which the
      opaque value type does not carry. */
  method AnalyseOnce<J>(e: CurrencyValueEstimator<J>, imageData: string, outcome: FetchOutcome<J>)
    returns (resultSet: bool, errorSet: bool)
    requires e.Valid()
    modifies e
    ensures resultSet == e.result.Some? && errorSet == e.error.Some?
    ensures !(resultSet && errorSet)
    ensures errorSet <==> Settle(outcome).ShowError?
    ensures Settle(outcome).ShowResult? ==> (resultSet <==> Settle(outcome).data.Some?)
    ensures !e.analyzing
  {
    var _ := e.StartAnalysis(imageData);
    e.FinishAnalysis(outcome);
    resultSet := e.result.Some?;
    errorSet := e.error.Some?;
  }

  /** Pressing "Subir Otra" while an analysis runs and uploading another
      image lets the first analysis's result land beside the second image,
      with the spinner down while the second request is still out. */
  method StaleResultAfterReset<J>(first: string, second: string, data: J)
    returns (shownImage: Option<string>, shownResult: Option<J>, spinner: bool)
    ensures shownImage == Some(second) && shownResult == Some(data) && !spinner
  {
    var e := new CurrencyValueEstimator<J>();
    var _ := e.HandleImageUpload(Some(first));
    e.Reset();
    var _ := e.HandleImageUpload(Some(second));
    e.FinishAnalysis(Received(true, Payload(true, Some(data), "")));
    shownImage, shownResult, spinner := e.image, e.result, e.analyzing;
  }
}
