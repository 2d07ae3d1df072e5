/** The view-state logic of the request details panel: the success
    classification of a captured exchange, the chat/JSON display mode seeded
    from it at mount and changed only by the mode selector, the OpenAI
    provider gate, the five-entry summary list, and the choice of payload view.
    Layout and widgets are left out: a rendering is the `View` value below. */
module Requests {
  import opened JsText

  /** The two payload display modes. */
  datatype Mode = Chat | Json

  /** The provider tag: OpenAI, or any other provider. */
  datatype ProviderType = OpenAI | Other

  /** Token accounting of a response; either count may be missing. */
  datatype Usage = Usage(completionTokens: Option<int>, promptTokens: Option<int>)

  /** The fields of an OpenAI-shaped request the panel reads. */
  datatype Request = Request(model: string)

  /** The fields of an OpenAI-shaped response the panel reads. */
  datatype Response = Response(status: Option<int>, usage: Option<Usage>)

  /** The precomputed metrics the panel reads from its `calculated` record;
      a missing key is `None`. */
  datatype Calculated = Calculated(totalTokens: Option<int>, totalCost: Option<real>, duration: Option<int>)

  datatype Props = Props(request: Request, response: Response, provider: ProviderType, calculated: Calculated)

  /** The two external formatters: the dollar formatter for the cost and the
      human-readable duration formatter for the latency. Both receive the
      metric as it is, present or not. */
  datatype Formatters = Formatters(toDollarSign: Option<real> -> string, ms: Option<int> -> string)

  datatype TagColor = Uncolored | Green | Red

  /** What a summary entry shows next to its title. */
  datatype Description =
    | Badge(color: TagColor, text: string)
    | TokenCount(total: string, tooltip: seq<string>)
    | Text(text: string)

  datatype SummaryItem = SummaryItem(title: string, description: Description)

  /** The two external payload renderers, with the props they are given. */
  datatype PayloadView =
    | JsonView(request: Request, response: Response)
    | ChatView(request: Request, response: Response)

  /** The mode selector: its options in order and its current value. */
  datatype Selector = Selector(options: seq<Mode>, value: Mode)

  /** A rendering: nothing at all, or the summary list, the selector and the
      payload views, in that order. */
  datatype View =
    | Nothing
    | Details(summary: seq<SummaryItem>, selector: Selector, payload: seq<PayloadView>)

  const SummaryTitles: seq<string> := ["Model", "Tokens", "Cost", "Status", "Latency"]

  const ModeOptions: seq<Mode> := [Chat, Json]

  /** An exchange succeeded when its HTTP status is in the 2xx class. A missing
      status fails both comparisons in JavaScript, so it is a failure. */
  function IsSuccess(status: Option<int>): (r: bool)
    ensures r <==> status.Some? && status.value / 100 == 2
  {
    match status
    case None => false
    case Some(s) => s >= 200 && s < 300
  }

  lemma SuccessBoundaries()
    ensures IsSuccess(Some(200)) && IsSuccess(Some(299))
    ensures !IsSuccess(Some(199)) && !IsSuccess(Some(300)) && !IsSuccess(Some(-1)) && !IsSuccess(None)
  {
  }

  /** The mode a freshly mounted panel starts in. */
  function SeedMode(status: Option<int>): (m: Mode)
    ensures m == Chat <==> status.Some? && 200 <= status.value < 300
    ensures m == Json <==> !IsSuccess(status)
  {
    if IsSuccess(status) then Chat else Json
  }

  /** The Status entry: a green "Success" badge, or a red badge holding the
      status as shown by JSX (nothing when it is missing) and " Error". */
  function StatusDescription(status: Option<int>): (d: Description)
    ensures IsSuccess(status) ==> d == Badge(Green, "Success")
    ensures !IsSuccess(status) ==> d == Badge(Red, ChildText(status) + " Error")
    ensures status.Some? && !IsSuccess(status) ==>
              var prefix := d.text[..|d.text| - 6];
              IsIntText(prefix) && ParseInt(prefix) == status.value
  {
    if IsSuccess(status) then Badge(Green, "Success")
    else
      var text := ChildText(status) + " Error";
      assert text[..|text| - 6] == ChildText(status);
      if status.Some? then
        IntTextRoundTrip(status.value);
        Badge(Red, text)
      else
        Badge(Red, text)
  }

  /** A Status badge tells success from failure, and a failure badge tells
      exactly which status the response had, a missing one included. */
  lemma StatusBadgeDeterminesStatus(s1: Option<int>, s2: Option<int>)
    requires StatusDescription(s1) == StatusDescription(s2)
    ensures IsSuccess(s1) <==> IsSuccess(s2)
    ensures !IsSuccess(s1) ==> s1 == s2
  {
  }

  /** A 500 response is labelled "500 Error"; a response without a status
      shows only " Error", since JSX renders nothing for `undefined`. */
  lemma StatusLabelExamples()
    ensures StatusDescription(Some(500)) == Badge(Red, "500 Error")
    ensures StatusDescription(Some(200)) == Badge(Green, "Success")
    ensures StatusDescription(None) == Badge(Red, " Error")
  {
  }

  /** `usage?.completion_tokens`: missing when `usage` is. */
  function CompletionTokens(usage: Option<Usage>): (r: Option<int>)
    ensures r.None? <==> usage.None? || usage.value.completionTokens.None?
    ensures r.Some? ==> r == usage.value.completionTokens
  {
    match usage
    case None => None
    case Some(u) => u.completionTokens
  }

  /** `usage?.prompt_tokens`: missing when `usage` is. */
  function PromptTokens(usage: Option<Usage>): (r: Option<int>)
    ensures r.None? <==> usage.None? || usage.value.promptTokens.None?
    ensures r.Some? ==> r == usage.value.promptTokens
  {
    match usage
    case None => None
    case Some(u) => u.promptTokens
  }

  /** The Tokens entry: the total, and a tooltip of two lines with the
      completion and prompt counts. */
  function TokensDescription(calculated: Calculated, usage: Option<Usage>): (d: Description)
    ensures d.TokenCount? && |d.tooltip| == 2
    ensures d.total == ChildText(calculated.totalTokens)
    ensures d.tooltip == ["Completion tokens: " + ChildText(CompletionTokens(usage)),
                          "Prompt tokens: " + ChildText(PromptTokens(usage))]
    ensures usage.None? ==> d.tooltip == ["Completion tokens: ", "Prompt tokens: "]
  {
    assert "Completion tokens: " + ChildText(None) == "Completion tokens: ";
    assert "Prompt tokens: " + ChildText(None) == "Prompt tokens: ";
    TokenCount(ChildText(calculated.totalTokens),
               ["Completion tokens: " + ChildText(CompletionTokens(usage)),
                "Prompt tokens: " + ChildText(PromptTokens(usage))])
  }

  /** A missing `usage` leaves both token counts missing, and the tooltip
      then differs from the one for counts of zero. */
  lemma AbsentUsageIsNotZero(calculated: Calculated)
    ensures CompletionTokens(None) == None && PromptTokens(None) == None
    ensures TokensDescription(calculated, None) != TokensDescription(calculated, Some(Usage(Some(0), Some(0))))
  {
  }

  /** The tooltip shows each token count faithfully: two usages with the same
      tooltip have the same completion and prompt counts, presence included. */
  lemma TokenTooltipDeterminesCounts(calculated: Calculated, u1: Option<Usage>, u2: Option<Usage>)
    requires TokensDescription(calculated, u1).tooltip == TokensDescription(calculated, u2).tooltip
    ensures CompletionTokens(u1) == CompletionTokens(u2)
    ensures PromptTokens(u1) == PromptTokens(u2)
  {
    var c1, c2 := ChildText(CompletionTokens(u1)), ChildText(CompletionTokens(u2));
    var p1, p2 := ChildText(PromptTokens(u1)), ChildText(PromptTokens(u2));
    var cp, pp := "Completion tokens: ", "Prompt tokens: ";
    assert cp + c1 == cp + c2;
    assert c1 == (cp + c1)[|cp|..] && c2 == (cp + c2)[|cp|..];
    assert pp + p1 == pp + p2;
    assert p1 == (pp + p1)[|pp|..] && p2 == (pp + p2)[|pp|..];
    ChildTextInjective(CompletionTokens(u1), CompletionTokens(u2));
    ChildTextInjective(PromptTokens(u1), PromptTokens(u2));
  }

  /** The summary list: Model, Tokens, Cost, Status, Latency, always in that
      order, whatever the metrics hold. */
  function Summary(request: Request, response: Response, calculated: Calculated, fmt: Formatters): (items: seq<SummaryItem>)
    ensures |items| == |SummaryTitles|
    ensures forall i :: 0 <= i < |items| ==> items[i].title == SummaryTitles[i]
    ensures items[0].description == Badge(Uncolored, request.model)
    ensures items[1].description == TokensDescription(calculated, response.usage)
    ensures items[2].description == Text(fmt.toDollarSign(calculated.totalCost))
    ensures items[3].description == StatusDescription(response.status)
    ensures items[4].description == Text(fmt.ms(calculated.duration))
  {
    [ SummaryItem("Model", Badge(Uncolored, request.model)),
      SummaryItem("Tokens", TokensDescription(calculated, response.usage)),
      SummaryItem("Cost", Text(fmt.toDollarSign(calculated.totalCost))),
      SummaryItem("Status", StatusDescription(response.status)),
      SummaryItem("Latency", Text(fmt.ms(calculated.duration))) ]
  }

  /** The Status entry of the summary is a green "Success" badge exactly for
      a 2xx status, and otherwise a red badge with the status followed by
      " Error", whatever the metrics hold. */
  lemma SummaryStatusEntry(request: Request, response: Response, calculated: Calculated, fmt: Formatters)
    ensures var items := Summary(request, response, calculated, fmt);
            && items[3].title == "Status"
            && (items[3].description == Badge(Green, "Success") <==> IsSuccess(response.status))
            && (!IsSuccess(response.status) ==>
                  items[3].description == Badge(Red, ChildText(response.status) + " Error"))
  {
  }

  /** The payload views rendered in a mode: the JSON view when the mode is
      `Json`, the chat view when it is `Chat`, each given the request and the
      response untouched. */
  function PayloadViews(mode: Mode, request: Request, response: Response): (views: seq<PayloadView>)
    ensures |views| == 1
    ensures views[0].JsonView? <==> mode == Json
    ensures views[0].request == request && views[0].response == response
  {
    (if mode == Json then [JsonView(request, response)] else []) +
    (if mode == Chat then [ChatView(request, response)] else [])
  }

  /** One render of the panel in a given mode. */
  function Present(props: Props, mode: Mode, fmt: Formatters): (v: View)
    ensures v == Nothing <==> props.provider != OpenAI
    ensures v.Details? ==>
              && |v.summary| == 5
              && v.selector.options == [Chat, Json] && v.selector.value == mode
              && |v.payload| == 1 && (v.payload[0].ChatView? <==> mode == Chat)
    ensures v.Details? ==>
              && v.summary == Summary(props.request, props.response, props.calculated, fmt)
              && v.payload == PayloadViews(mode, props.request, props.response)
  {
    if props.provider != OpenAI then Nothing
    else
      Details(Summary(props.request, props.response, props.calculated, fmt),
              Selector(ModeOptions, mode),
              PayloadViews(mode, props.request, props.response))
  }

  /** A mounted panel. Its only state is the selected mode. */
  class RequestDetails {
    var selectedMode: Mode

    /** Mounting seeds the mode from the first props' status, before and
        regardless of the provider gate. */
    constructor (props: Props)
      ensures selectedMode == SeedMode(props.response.status)
    {
      selectedMode := SeedMode(props.response.status);
    }

    /** A render with the current props. The mode is read, never re-seeded
        from the status. */
    method Render(props: Props, fmt: Formatters) returns (v: View)
      ensures v == Present(props, selectedMode, fmt)
    {
      v := Present(props, selectedMode, fmt);
    }

    /** The selector's change handler. */
    method SetMode(value: Mode)
      modifies this
      ensures selectedMode == value
    {
      selectedMode := value;
    }
  }

  /** Mounting and rendering once: for an OpenAI exchange the chat view is
      shown exactly when the status is 2xx; for any other provider nothing is
      shown, yet the mode is seeded all the same. */
  method Mount(props: Props, fmt: Formatters) returns (panel: RequestDetails, v: View)
    ensures panel.selectedMode == SeedMode(props.response.status)
    ensures v == Present(props, SeedMode(props.response.status), fmt)
    ensures props.provider != OpenAI ==> v == Nothing
    ensures props.provider == OpenAI ==>
              v.Details? && |v.payload| == 1 && (v.payload[0].ChatView? <==> IsSuccess(props.response.status))
  {
    panel := new RequestDetails(props);
    v := panel.Render(props, fmt);
  }

  /** New props never re-seed the mode: after mounting with `first`, a render
      with `later` keeps the mode seeded from `first`, whatever the status of
      `later`. */
  method RerenderKeepsSeed(first: Props, later: Props, fmt: Formatters) returns (v: View)
    ensures v == Present(later, SeedMode(first.response.status), fmt)
    ensures later.provider == OpenAI ==>
              v.Details? && v.payload == PayloadViews(SeedMode(first.response.status), later.request, later.response)
  {
    var panel := new RequestDetails(first);
    var _ := panel.Render(first, fmt);
    v := panel.Render(later, fmt);
  }

  /** A mode the user selects stays selected across later renders, whatever
      their props. */
  method ChoiceSurvivesRerender(first: Props, choice: Mode, later: Props, fmt: Formatters) returns (v: View)
    ensures v == Present(later, choice, fmt)
    ensures later.provider == OpenAI ==> v.Details? && v.payload == PayloadViews(choice, later.request, later.response)
  {
    var panel := new RequestDetails(first);
    var _ := panel.Render(first, fmt);
    panel.SetMode(choice);
    v := panel.Render(later, fmt);
  }
}
