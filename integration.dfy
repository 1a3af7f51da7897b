/** The component talking to the endpoint: what the request body it posts
    selects on the server, and what the server's response turns into on the
    screen once it reaches `analyzeCoinWithAI` as a successful `fetch`. */
module Integration {
  import opened Common
  import opened Prompts
  import opened AnalyzeEndpoint
  import opened Estimator

  /** The server's response as the component receives it: `response.ok` is
      true for a 2xx status, and `response.json()` yields the body's fields
      (`{ success: true, data }` or `{ error }`). */
  function ToFetchOutcome<J>(r: Response<J>): (o: FetchOutcome<J>)
    ensures o.Received? && o.payload.Payload?
    ensures o.ok <==> 200 <= r.status < 300
    ensures o.payload.success <==> r.body.Succeeded?
    ensures r.body.Succeeded? ==> o.payload.data == Some(r.body.data)
    ensures r.body.Failed? ==> o.payload.data.None? && o.payload.error == r.body.error
  {
    match r.body
    case Succeeded(data) => Received(200 <= r.status < 300, Payload(true, Some(data), ""))
    case Failed(message) => Received(200 <= r.status < 300, Payload(false, None, message))
  }

  /** Whatever the endpoint answers, the component shows its data as the
      result when it succeeded, and otherwise shows the endpoint's error
      message, replaced by the connection message when it mentions `fetch`. */
  lemma ScreenFollowsResponse<J>(imageData: Option<string>, currencyType: Option<string>,
                                 provider: ModelRequest -> ModelOutcome, parse: string -> Parsed<J>)
    ensures var r := Analyze(imageData, currencyType, provider, parse);
            Settle(ToFetchOutcome(r)) ==
              if r.body.Succeeded? then ShowResult(Some(r.body.data)) else ShowError(ErrorText(r.body.error))
  {
    var r := Analyze(imageData, currencyType, provider, parse);
    if r.body.Failed? {
      assert r.status != 200;
      assert ThrownMessage(ToFetchOutcome(r)) == Some(r.body.error);
    }
  }

  /** The mode the component posts, always one of its three buttons, selects
      the template of the same name on the server. */
  lemma PostedModeSelectsTemplate(mode: string)
    requires mode in Modes
    ensures mode == "auto" ==> SelectTemplate(Some(mode)) == AutoTemplate
    ensures mode == "coin" ==> SelectTemplate(Some(mode)) == CoinTemplate
    ensures mode == "bill" ==> SelectTemplate(Some(mode)) == BillTemplate
  {
  }

  /** The rarity and demand tiers the prompts ask the model for are Spanish,
      and the component's tables are keyed by English tiers, so every tier the
      model is asked to report is drawn in the default gray. */
  lemma SpanishTiersGetDefault(tier: string)
    ensures tier in CoinRarityTiers || tier in BillRarityTiers ==> RarityColor(tier) == DefaultRarityClass
    ensures tier in SpanishDemandTiers ==> DemandColor(tier) == DefaultDemandClass
  {
  }

  /** One upload through to the screen: the posted image reaches the model
      unchanged when it is an image data URL, and the component ends showing
      either the endpoint's data or its error, never both, with the spinner
      down. */
  method UploadAndAnalyse<J>(e: CurrencyValueEstimator<J>, file: string,
                             provider: ModelRequest -> ModelOutcome, parse: string -> Parsed<J>)
    returns (response: Response<J>)
    requires e.Valid() && e.image.None?
    modifies e
    ensures e.Valid() && !e.analyzing && e.image == Some(file)
    ensures response == Analyze(Some(file), Some(e.currencyType), provider, parse)
    ensures response.body.Succeeded? ==> e.result == Some(response.body.data) && e.error.None?
    ensures response.body.Failed? ==> e.error == Some(ErrorText(response.body.error)) && e.result.None?
  {
    var request := e.HandleImageUpload(Some(file));
    response := Analyze(Some(request.value.imageData), Some(request.value.currencyType), provider, parse);
    ScreenFollowsResponse(Some(file), Some(e.currencyType), provider, parse);
    e.FinishAnalysis(ToFetchOutcome(response));
  }
}
