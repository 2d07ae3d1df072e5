# Request details panel: view-state model

This project models the view-state logic of the console's request details
panel (`RequestDetails`), which shows one captured API exchange: a request and
its response. The panel:

- classifies the exchange as a success when the response's HTTP status is in
  the 2xx range. A missing status fails both JavaScript comparisons, so it
  counts as a failure;
- seeds its display mode (`chat` or `json`) once, at mount, from that
  classification: chat for a success, JSON otherwise. After that only the
  mode selector's change handler changes it. Re-renders with new props read
  the mode but never re-seed it;
- renders nothing unless the provider is OpenAI. The mode is seeded even
  then, because the state hook runs before the gate;
- shows a fixed summary of five entries: Model, Tokens, Cost, Status and
  Latency, in that order;
- shows the JSON view in mode `json` and the chat view in mode `chat`. Both
  views get the props' request and response untouched.

The project has two modules:

- `JsText` (`js_text.dfy`) models how the panel's values become text.
  `Option` stands for a value that may be `undefined`. `IntText` gives a
  number's decimal text, and `ParseInt` reads it back. `ChildText` is what a
  JSX `{value}` child shows: nothing for `undefined`, the number's text
  otherwise.
- `Requests` (`request_details.dfy`) models the component. The pure parts are
  functions over datatypes. The single piece of mutable state, `selectedMode`,
  is a field of the class `RequestDetails`. Its constructor seeds the field,
  `SetMode` is the change handler, and `Render` reads the field.

The two external formatters (the dollar formatter and the duration formatter)
are parameters of type `Formatters`: the model applies them to the metric
exactly as the component does and does not interpret them.

The status goes into the failure badge as a JSX child
(`{response.status} Error`). JSX renders nothing for `undefined`, so a
response without a status shows a badge reading " Error".
`StatusLabelExamples` states this case.

## Model

| member | source | states |
|---|---|---|
| `Requests.IsSuccess` | apps/console/src/app/components/requests/RequestDetails.tsx:35 | success holds exactly when a status is present and its hundreds class is 2 |
| `Requests.SuccessBoundaries` | apps/console/src/app/components/requests/RequestDetails.tsx:35 | 200 and 299 are successes; 199, 300, -1 and a missing status are failures |
| `Requests.SeedMode` | apps/console/src/app/components/requests/RequestDetails.tsx:37-39 | the initial mode is chat exactly when 200 <= status < 300, and json exactly when the exchange failed |
| `Requests.RequestDetails.constructor` | apps/console/src/app/components/requests/RequestDetails.tsx:37-39 | mounting seeds `selectedMode` from the first props' status, whatever the provider |
| `Requests.RequestDetails.SetMode` | apps/console/src/app/components/requests/RequestDetails.tsx:119 | the change handler sets `selectedMode` to exactly the chosen value; the object has no other state |
| `Requests.RequestDetails.Render` | apps/console/src/app/components/requests/RequestDetails.tsx:32-131 | a render changes nothing and shows `Present` of the props in the stored mode, so the payload view follows the stored mode, not the status |
| `Requests.Present` | apps/console/src/app/components/requests/RequestDetails.tsx:41-130 | the result is empty exactly when the provider is not OpenAI; otherwise it shows the summary list, a selector offering chat then json that holds the mode, and exactly one payload view, the chat view exactly in chat mode, given the props' request and response |
| `Requests.StatusDescription` | apps/console/src/app/components/requests/RequestDetails.tsx:80-87 | a success gives a green "Success" badge; a failure gives a red badge reading the status's own text followed by " Error" (just " Error" for a missing status), and for a present status the text before " Error" parses back to the status |
| `Requests.StatusLabelExamples` | apps/console/src/app/components/requests/RequestDetails.tsx:82-86 | status 500 reads "500 Error", status 200 reads "Success", a missing status reads " Error" |
| `Requests.StatusBadgeDeterminesStatus` | apps/console/src/app/components/requests/RequestDetails.tsx:85 | equal badges mean equal outcomes, and equal failure badges mean equal statuses, a missing status included |
| `Requests.TokensDescription` | apps/console/src/app/components/requests/RequestDetails.tsx:53-74 | the Tokens entry shows the total from the metrics, and its tooltip reads "Completion tokens: " and "Prompt tokens: " each followed by the optionally chained count; without `usage` the lines carry no counts |
| `Requests.CompletionTokens` | apps/console/src/app/components/requests/RequestDetails.tsx:62 | `usage?.completion_tokens` is missing exactly when `usage` or its completion count is missing, and otherwise is that count |
| `Requests.PromptTokens` | apps/console/src/app/components/requests/RequestDetails.tsx:64 | `usage?.prompt_tokens` is missing exactly when `usage` or its prompt count is missing, and otherwise is that count |
| `Requests.AbsentUsageIsNotZero` | apps/console/src/app/components/requests/RequestDetails.tsx:62-64 | optional chaining leaves both counts missing when `usage` is missing, and that tooltip differs from the tooltip for counts of zero |
| `Requests.TokenTooltipDeterminesCounts` | apps/console/src/app/components/requests/RequestDetails.tsx:58-66 | equal tooltips mean equal completion and prompt counts, presence included |
| `Requests.Summary` | apps/console/src/app/components/requests/RequestDetails.tsx:48-92 | the summary always has five entries, titled Model, Tokens, Cost, Status, Latency in that order, showing the model name in an uncoloured badge, the Tokens entry, the dollar-formatted cost, the Status badge and the duration-formatted latency |
| `Requests.SummaryStatusEntry` | apps/console/src/app/components/requests/RequestDetails.tsx:80-87 | the fourth entry is Status; it is a green "Success" badge exactly for a success and otherwise a red badge with the status followed by " Error", whatever the metrics hold |
| `Requests.PayloadViews` | apps/console/src/app/components/requests/RequestDetails.tsx:123-128 | exactly one payload view is rendered: the JSON view exactly in json mode. It gets the request and the response unchanged |
| `Requests.Mount` | apps/console/src/app/components/requests/RequestDetails.tsx:37-43 | after mounting, the mode is the seed and the first render is `Present` in the seeded mode: empty for a non-OpenAI provider, and for OpenAI the chat view exactly for a success |
| `Requests.RerenderKeepsSeed` | apps/console/src/app/components/requests/RequestDetails.tsx:37-39 | a render with new props is `Present` of those props in the mode seeded from the first props, whatever the new status |
| `Requests.ChoiceSurvivesRerender` | apps/console/src/app/components/requests/RequestDetails.tsx:118-128 | after the user selects a mode, a render with any later props shows that mode's view |
| `JsText.NatText` | apps/console/src/app/components/requests/RequestDetails.tsx:85 | a number's text is a non-empty string of decimal digits with no leading zero |
| `JsText.ParseNatText` | apps/console/src/app/components/requests/RequestDetails.tsx:85 | reading a number's digit text back gives the number |
| `JsText.IntText` | apps/console/src/app/components/requests/RequestDetails.tsx:85 | an integer's text starts with a minus sign exactly when the integer is negative, followed by a non-empty run of decimal digits with no leading zero (only zero itself is "0") |
| `JsText.IntTextRoundTrip` | apps/console/src/app/components/requests/RequestDetails.tsx:85 | reading an integer's text back gives the integer |
| `JsText.IntTextInjective` | apps/console/src/app/components/requests/RequestDetails.tsx:85 | distinct integers have distinct texts |
| `JsText.ChildText` | apps/console/src/app/components/requests/RequestDetails.tsx:57-64 | a JSX child shows the empty text exactly when its value is `undefined`, and for a present number shows that number's text, which parses back to the number |
| `JsText.ChildTextInjective` | apps/console/src/app/components/requests/RequestDetails.tsx:57-64 | distinct optional numbers show distinct texts, so a missing value never shows like zero |

## Left out

- Layout, the widget library's components (list, tag, tooltip, selector, spacing), icons and styling. A rendering is the `View` value. Tag colours are kept because they tell success from failure.
- The dollar formatter and the duration formatter. Their code is not part of this model, so they are parameters that the model applies without interpreting them.
- The chat view and the JSON view. Their code is not part of this model; the model records only which one is rendered and with which props.
- The `id`, `metadata` and `properties` props. None of the modelled logic reads them. Keys of the metrics record other than `totalTokens`, `totalCost` and `duration` are not modelled either.
- Payload shapes of providers other than OpenAI. The casts at the top of the component only change types, so the model's request and response carry only the OpenAI-shaped fields the panel reads.
- The selector's labels and icons, and the cast of the selected value to a mode. The model's handler takes a `Mode`: the selector offers only chat and json, so the case where an unknown mode renders neither view cannot arise.
- React's hook machinery beyond the single mode field: scheduling, re-render triggering and unmounting.
- IntText: renders every number as an integer in plain decimal. JavaScript numbers are floating point, and non-integer values, NaN and the exponent notation JavaScript uses from 1e21 on are not modelled. Token counts, statuses and durations are integers.
