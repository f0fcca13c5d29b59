# standard-deviation-service, modelled in Dafny

The service answers `GET /random/mean?requests=R&length=L`. To do that it:

- asks random.org `R` times for `L` random integers;
- feeds each set to an aggregator, which emits one standard-deviation result per set and then one over all sets together;
- returns the results as JSON.

This project models the sequential logic around the concurrent fan-out, as pure functions:

- **`ClientOptions`**: the functional options of `client/request.go`, with defaults Min 1, Max 10, Quantity 5.
- **`RandomOrgRequest`**: the random.org GET request built from those options.
  - `min`, `max` and `num` are written with `Itoa` over a fixed template query.
  - `col`, `base`, `format` and `rnd` are kept from the template.
- **`RandomOrgBody`** and **`Client`**: the plain-text body parser, which exists twice in the source, identically.
  - There is a content-type gate, and then lines are scanned, trimmed, skipped when blank and converted with `Atoi`.
  - `RandomOrgBody.ParseBody` is the functional reference.
  - `Client.ParseIntegers` is the loop as the Go code writes it, proved equal to the reference on every input.
- **`Random`**: `Random.Integers`, the three-stage short-circuit factory → sender → parser.
  - Each stage's failure gets its own error kind.
  - A call log records which collaborators ran, with which arguments.
- **`Pipeline`**: `Random.Integers` with the random.org factory and body parser plugged in, and used as the server's generator; error texts compose as `fmt.Errorf` writes them.
- **`StdDevService`**: the aggregator `Calculate`.
  - One result per set, in arrival order, with the set's data unchanged.
  - Then one cumulative result over the concatenation, emitted only when that concatenation is non-empty.
  - The standard deviation itself is a parameter, `Deviation = seq<int> -> real`.
- **`Server`**: `Mean` and `doMean`.
  - `requests` and `length` are parsed with `Atoi`; a failure gives 400.
  - `requests` generator calls are made; the outcome is all or nothing (500 on any failure).
  - Call `i` yields `gen(i, length)`. The order in which the calls finish is an arbitrary permutation that the contracts quantify over.
- **`Validation`**: `paramPositiveInt` and the decision of `validationMiddleware`.

Supporting modules model the pieces of Go's standard library that this logic relies on:

- `Results`: the result type;
- `Strconv`: `Atoi` with the 64-bit `int` range check, and `Itoa`;
- `Strings`: ASCII `TrimSpace`, `Split`, and the lines `bufio.ScanLines` yields;
- `UrlValues`: `url.Values` `Get`/`Set`;
- `Seqs`: mapping over sequences, and permutations.

Bytes are modelled as characters.

The aggregator's guard before the cumulative result tests the accumulated integers, `len(setSum) == 0` (service/stddev.go:32), not how many sets arrived. So a stream of only empty sets gets one result per set and no cumulative result (`StdDevService.AllEmptySets`).

## Model

| member | source | states |
|---|---|---|
| ClientOptions.Apply | client/request.go:27-43 | each setter stores its value verbatim into its own field and leaves the other two fields unchanged |
| ClientOptions.NewOptionsLastWins | client/request.go:9-15 | every field of NewOptions is the value of the last option that targets it, or its default when none does (checked against an independent last-writer function) |
| ClientOptions.NoOptionsGiveDefaults | client/request.go:17-23 | with no options the configuration is Min 1, Max 10, Quantity 5 |
| ClientOptions.DistinctFieldsCommute | client/request.go:10-13 | setters of different fields commute |
| ClientOptions.SameFieldOverrides | client/request.go:10-13 | a later setter of the same field overrides the earlier one completely |
| RandomOrgRequest.NewRequest | client/randomorg/request.go:20-41 | GET, https, host www.random.org, path /integers/, and a query equal to the template with min, max and num replaced by the Itoa renderings of the options |
| RandomOrgRequest.QueryShape | client/randomorg/request.go:23-33 | the query has all seven keys, each with exactly one value, and col, base, format and rnd equal the template's |
| RandomOrgRequest.QueryRoundTrip | client/randomorg/request.go:30-32 | reading num, min and max back with Atoi gives the option values, for every value a Go int holds |
| RandomOrgRequest.DefaultQuery | client/randomorg/request_test.go:18-34 | with no options the template's max=100 is overwritten: num 5, min 1, max 10, col 1, base 10, format plain, rnd new |
| RandomOrgRequest.CustomQuery | client/randomorg/request_test.go:41-63 | quantity 23, min -11 and max 435 appear as "23", "-11" and "435", and the fixed keys are unchanged |
| RandomOrgRequest.NamesDistinct | client/randomorg/request.go:23 | the seven query keys have pairwise different wire names |
| RandomOrgBody.ValidContentTypeShape | client/randomorg/body.go:45-51 | a content type is accepted exactly when it is "text/plain" alone or "text/plain;" followed by anything |
| RandomOrgBody.FirstBad | client/randomorg/body.go:35-38 | the index of the first word Atoi refuses: every earlier word is an integer |
| RandomOrgBody.Convert | client/randomorg/body.go:35-42 | succeeds exactly when every word is an integer, returning one value per word in order; otherwise the error names the first bad word and no integers are returned |
| RandomOrgBody.ParseBody | client/randomorg/body.go:18-43 | an unsupported content type is refused before the body is read; otherwise the call succeeds exactly when Atoi accepts every trimmed non-blank line, returning one value per such line in order, and a failure names the first line Atoi refuses |
| RandomOrgBody.EmptyBody | client/randomorg/body_test.go:15-24 | an empty body with an accepted content type gives no integers and no error |
| RandomOrgBody.ScannerAgreesWithSplit | client/randomorg/body.go:24-34 | bufio's line scanning and a split on every newline give the same trimmed non-blank lines, so the same integers or the same error |
| RandomOrgBody.ParseRender | client/randomorg/body.go:18-43 | parsing integers written one per line in decimal gives back exactly those integers, for any accepted content type |
| Client.ParseLinesStep | client/client.go:64-73 | one loop iteration: a blank line is skipped, a bad line ends the call with its error, a good line contributes its integer in front of the rest |
| Client.ParseIntegers | client/client.go:52-85 | the loop as written returns exactly what BodyParser.ParseIntegers returns, on every body and content type |
| Random.Integers | random/random.go:47-64 | the factory is asked for WithQuantity(quantity); each failing stage stops the call with its own kind and runs no later stage; the sender gets the factory's request and the parser gets the sender's bytes and content type |
| Random.ErrorKindNamesStage | random/random.go:48-63 | ErrInit, ErrGenerator and ErrItems occur exactly when the factory, the sender or the parser fails; success returns the parser's integers unchanged |
| Pipeline.SentRequest | random/random.go:48 | with the random.org factory, the request sent asks for quantity integers between 1 and 10 |
| Pipeline.PlainTextAnswer | random/random.go:53-63 | a plain-text answer listing integers makes Integers return exactly them |
| Pipeline.WrongContentType | random/random.go:58-61 | an answer in another content type fails with the ErrItems kind and the parser's message |
| Pipeline.DoMeanErrorText | server/server.go:99-111 | with the random.org generator, every doMean error is its own prefix followed by the text of a wrapped generator error |
| Pipeline.AllAnswersWrongContentType | server/server.go:99-111 | when every call is answered in another content type, doMean fails with its prefix, the ErrItems text and the parser's refusal, in that order |
| StdDevService.Calculate | service/stddev.go:19-42 | one result per set in arrival order, with data equal to the set and the deviation of the set; a last, cumulative result over the concatenation exactly when that is non-empty |
| StdDevService.Drain | service/stddev.go:23-39 | the receive loop from any prefix sum: per-set results, then the sum result unless the sum is empty |
| StdDevService.EmptyStream | service/stddev_test.go:9-21 | a stream that closes with no sets yields no results |
| StdDevService.AllEmptySets | service/stddev.go:32-34 | n empty sets give n results with empty data and no cumulative result |
| StdDevService.CumulativeIsLast | service/stddev.go:25-38 | the cumulative result comes last, holds the concatenation in arrival order, and its length is the sum of the set lengths |
| StdDevService.ConcatPermutation | service/stddev.go:25 | streams holding the same sets in any order accumulate the same multiset of integers |
| StdDevService.ConcatUniformLength | service/stddev.go:25 | sets of equal length L accumulate n*L integers |
| StdDevService.SingleSet | service/stddev_test.go:30-44 | the single set [3] yields two results, both with data [3] |
| Server.DoMean | server/server.go:91-118 | succeeds exactly when every one of the requests calls succeeds, and then returns the aggregator's output over the delivered sets in arrival order; otherwise the error wraps the error of a call that failed |
| Server.OnlyTheRequestedCalls | server/server.go:97-99 | the result depends only on calls 0..requests-1, each asking for numbers integers |
| Server.ArrivalOrderIrrelevant | server/server.go:92-117 | any two arrival orders agree on success, on the number of results, on the multiset of per-set results and on the multiset of cumulative data |
| Server.PerSetResultsPermute | service/stddev.go:24-31 | the same sets in another order give the same per-set results, up to order |
| Server.SuccessfulShape | server/server.go:92-117 | R successful calls of L > 0 integers give R+1 results, the last one holding R*L integers; requests=0 gives no results and no error |
| Server.AnyFailureFails | server/server.go:107-110 | one failed call fails the whole request |
| Server.Mean | server/server.go:67-89 | 400 with no body exactly when Atoi refuses requests or length; a negative requests panics; otherwise a failed doMean gives 500 with no body and a successful one gives 200 with exactly doMean's results |
| Server.BadParametersMakeNoCall | server/server.go:68-79 | a 400 reply does not depend on the generator: no call is made |
| Server.MeanPanicsOnNegativeRequests | server/server.go:92 | the query requests=-1&length=5 reaches the handler and makes it panic |
| Server.ValidatedMean | server/validation.go:17-34 | with the middleware in front, the handler never panics: invalid parameters get 400 and the middleware's message, and valid ones get Mean's reply |
| Validation.ParamPositiveInt | server/validation.go:36-46 | the value is returned when Atoi accepts it and it is above zero; otherwise the error names the parameter and says "not an integer" when Atoi refuses and "not positive" when the value is at most zero |
| Validation.ValidationMiddleware | server/validation.go:17-34 | the next handler runs exactly when both parameters are positive integers; otherwise the reply is 400 |
| Validation.RequestsCheckedFirst | server/validation.go:19-24 | when requests is invalid the message is about requests, whatever length holds |
| Validation.LengthCheckedSecond | server/validation.go:25-30 | when requests is valid and length is not, the message is about length |
| Validation.PositiveRoundTrip | server/validation.go:36-46 | a positive value written with Itoa is returned unchanged; zero and negatives are refused as not positive |
| Validation.MissingParam | server/validation.go:37-41 | an absent parameter is "not an integer" |
| Validation.ReadMessage | server/validation.go:10-13 | the fault and the parameter name can be read back from the message text |
| Validation.MessagesDistinct | server/validation.go:40-43 | two parameter errors have the same message exactly when they are the same error |
| Strconv.AtoiItoa | client/randomorg/request.go:30-32 | Atoi reads back what Itoa writes for every value of a Go int, and refuses the rendering outside that range |
| Strings.TrimSpace | client/randomorg/body.go:31 | the result is a slice of the input with only white space before and after it; it is empty exactly when the input is all white space, and otherwise starts and ends with a non-space; input without white space is unchanged |
| Strings.JoinSplit | client/randomorg/body.go:49 | joining the pieces of a split with the separator gives the input back |
| Strings.ScanLines | client/randomorg/body.go:24-26 | no scanned line contains a newline; an empty input yields no lines |
| Strings.ScanLinesContents | client/randomorg/body.go:24-26 | line k is the k-th piece between newlines without one trailing carriage return; there is one line per piece, except that the empty last piece of an empty input or of one ending in a newline is not a line |

## Left out

- Concurrency: goroutines, channels, errgroup and context cancellation in doMean and Calculate are read sequentially. The arrival order is a permutation parameter; deadlock and race freedom are not stated.
- stats/stats.go: the float64 standard deviation is the `Deviation` parameter.
- Network I/O: `Client.Send` in client/client.go:33-50 is not modelled. In `Random` and `Pipeline` the sender is a parameter.
- HTTP wiring: chi routing and middleware, the server's run and stop, JSON encoding and cmd/main.go are not modelled. Replies carry a status and a body value.
- `url.Parse`, query encoding and `http.NewRequestWithContext` are not modelled; the query is a map. NewRequest's two error returns cannot fire for the fixed URL, so the model's factory always succeeds.
- RandomOrgRequest.NewRequest: the query is keyed by a datatype of the seven key names rather than by strings; `NamesDistinct` shows that the two readings agree.
- bufio.Scanner's 64 KiB token limit is not modelled. A longer line would end the scan early with the integers so far and no error; the in-loop `Err()` check never fires.
- Strings.TrimSpace: only ASCII white space is trimmed; Unicode spaces are not.
- RandomOrgBody.ErrorText: the Atoi error text that Go appends after the bad line is not reproduced. Only the line is kept.
- Strconv.Atoi: the error carries only the input, not Go's syntax or range distinction. Callers only test for an error.
- Server.Mean: a `requests` value so large that the channel buffer cannot be allocated would also fail in `make`; only the negative case is modelled.
- Random.ErrorKindNamesStage: error causes are strings, and `%w` wrapping is represented by the kind field.

## Findings

| source | as written | input that shows it | evidently intended | confidence | as-written member | corrected member |
|---|---|---|---|---|---|---|
| server/server.go:34-51 | validationMiddleware is defined but never installed on the /random/mean route, so Mean parses requests with Atoi alone and passes a negative value to make(chan []int, requests) at server/server.go:92, which panics | GET /random/mean?requests=-1&length=5 | the route is wrapped in validationMiddleware, so non-positive parameters get 400 with the middleware's message | medium; not executed | Server.MeanPanicsOnNegativeRequests | Server.ValidatedMean |
