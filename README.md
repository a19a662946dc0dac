# Stock exporter collector, modelled in Dafny

This project models the collector of a Prometheus exporter for stock data. On every scrape the collector walks its configured symbols in order. For each symbol it asks the Finnhub market-data provider for the current quote, then for the same day's company news. It sends on the registry's channel:

- one `stock_price{symbol}` gauge per quote that carries a price, with the default timestamp;
- one `stock_company_news{symbol, headline, url, id}` gauge of value 1 per complete news record, timestamped with the record's own date.

A failed request is logged and skipped, and the scrape goes on with the next symbol.

The provider is given as two total functions, one from a symbol to its quote result and one from (symbol, from, to) to its news result. With the provider fixed this way, a scrape is a deterministic transformation. The provider's API client (`Upstream.Client`) records every request in a log, so the fetch behaviour can be stated. The channel (`Metrics.Channel`) is a sequence that `Send` appends to.

`Collector.StocksCollector.Collect` is an imperative loop with `continue`-based early exits, as in the source. It is proved to send exactly `ScrapeMetrics(symbols, provider, today)` and to make exactly the requests `ScrapeCalls(symbols, provider, today)`. It has no other effect. Those two pure functions are the reference definitions, and `CollectorProperties` proves what the collector promises about them:

- grouping by symbol;
- isolation of per-symbol failures;
- filtering of incomplete news records;
- the label shape of every sample;
- the order and number of requests.

The inner loop over the news batch (main.go:110-128) is the method `Collector.SendNews`. It keeps the source's per-record `continue`, and `Collect` calls it where the source's inner loop stands. The news `id` label is rendered as `fmt.Sprintf("%d", id)` writes it (`Decimal.IntToDecimal`). It is proved to round-trip through a digit parser, so distinct ids give distinct labels.

After a failed quote the loop `continue`s with the next symbol (main.go:92-95): that symbol's news is not requested and it sends no samples; `QuoteFailureSkipsSymbol` states this.

Modules, one file each: `Wrappers` (Option), `Decimal`, `Upstream` (provider results, the client and its request log), `Metrics` (descriptors, samples, the channel), `Collector` (the two descriptors, the reference functions, the collector class) and `CollectorProperties` (the lemmas).

## Model

| member | source | states |
|---|---|---|
| `Collector.StocksCollector.constructor` | main.go:45-60 | The collector keeps the client and the symbol list it is given; both are immutable fields, so no scrape can change them. |
| `Collector.StocksCollector.Collect` | main.go:83-131 | One scrape appends to the channel exactly the samples of `ScrapeMetrics` and appends to the client's log exactly the requests of `ScrapeCalls`, for the collector's symbols and the given date as both news bounds; nothing else changes and nothing from earlier scrapes is consulted. |
| `Collector.SendNews` | main.go:110-128 | The news loop appends exactly `NewsMetrics(symbol, news)` to the channel: one sample per complete record, skipping the others. |
| `Collector.ScrapeTwice` | main.go:115 | Two scrapes on the same day with the same provider answers send the same samples twice in a row and append the same requests twice to the client's log: nothing is deduplicated and nothing is cached, each scrape asks the provider for everything again. |
| `Collector.DescriptorsWellFormed` | main.go:67-80 | The `stock_price` and `stock_company_news` descriptors have distinct names, 1 and 4 pairwise distinct label names, and both name `symbol` first. |
| `Collector.PriceMetric` | main.go:100 | A price sample has the price descriptor, one label value (the symbol) for its one label name, the price as value and the default scrape-time timestamp. |
| `Collector.NewsMetric` | main.go:116-127 | A news sample has the news descriptor, 4 label values (symbol, headline, url, id) matching its 4 label names, value 1, the record's datetime as explicit timestamp, and as id label the `%d` rendering of the record's id, which parses back to that id. |
| `Upstream.Client.GetQuote` | main.go:91 | A quote request returns the provider's answer for the symbol and adds exactly one quote request to the log. |
| `Upstream.Client.GetCompanyNews` | main.go:104 | A news request returns the provider's answer for (symbol, from, to) and adds exactly one news request to the log. |
| `Metrics.Channel.Send` | main.go:100 | Sending a sample appends it to what the channel has received, in order. |
| `Decimal.NatToDecimal` | main.go:125 | The rendering of a natural number is a non-empty string of digits with no leading zero, and "0" exactly for zero. |
| `Decimal.IntToDecimal` | main.go:125 | The `%d` rendering starts with '-' exactly for negative numbers, followed by digits without a leading zero; for a non-negative number it is all digits and starts with '0' exactly for zero, and zero is rendered as exactly "0". |
| `Decimal.IntRoundTrip` | main.go:125 | Parsing the rendering of any integer gives that integer back. |
| `Decimal.IntToDecimalInjective` | main.go:125 | Distinct news ids receive distinct id labels. |
| `CollectorProperties.ScrapeAppend` | main.go:88-129 | A scrape over `a + b` sends the samples and makes the requests of `a` followed by those of `b`. |
| `CollectorProperties.ScrapeDecomposes` | main.go:88-129 | Samples and requests are grouped by symbol in configured order: the scrape is the groups before a symbol, that symbol's own group, then the groups after it. |
| `CollectorProperties.SymbolGroupLocal` | main.go:91-127 | A symbol's group of samples and requests depends only on the provider's answers for that symbol: two providers that agree on its quote and its news for the day give it the same group. |
| `CollectorProperties.QuoteFailureSkipsSymbol` | main.go:91-95 | A failed quote removes the symbol's group entirely; it costs exactly one quote request and no news request, and the following symbols are processed unchanged. |
| `CollectorProperties.AbsentPriceKeepsNews` | main.go:96-104 | A quote without a price sends no price sample and raises nothing; the news is still requested and its samples are sent. |
| `CollectorProperties.NewsFailureKeepsPrice` | main.go:104-108 | A failed news request keeps the symbol's price sample and sends no news sample; both requests were made and the next symbol follows. |
| `CollectorProperties.NewsMetricsInOrder` | main.go:110-127 | A batch sends exactly as many samples as it has complete records, and the complete record at index i becomes the sample numbered by the count of complete records before it: all of them, in provider order. |
| `CollectorProperties.NewsMetricsSound` | main.go:110-114 | Every news sample comes from a complete record of the batch; a record missing its datetime, headline, id or url produces none. |
| `CollectorProperties.SymbolGroupShape` | main.go:96-127 | Every sample of a symbol's group carries that symbol as first label and is well-shaped; a sample is a price sample exactly when it is the first one and the quote carries a price, and a quote with a price puts its price sample first; all other samples are news samples. |
| `CollectorProperties.EveryMetricWellShaped` | main.go:67-127 | Every sample of a scrape has exactly its descriptor's labels (1 for `stock_price`, 4 for `stock_company_news`), is one of the two descriptors, and is labelled with a configured symbol. |
| `CollectorProperties.CallBounds` | main.go:88-108 | A scrape over N symbols makes at least N and at most 2N requests. |
| `CollectorProperties.EverySymbolQuoted` | main.go:88-95 | Every configured symbol is quoted exactly once, in configured order, whatever the answers. |
| `CollectorProperties.NewsCallFollowsQuote` | main.go:85-108 | Every news request directly follows a successful quote request for the same symbol, and uses the same date for both bounds. |
| `CollectorProperties.ScenarioFirstQuoteFails` | main.go:91-101 | With symbols AAPL and MSFT, a failed AAPL quote and an MSFT price of 300.0, whatever MSFT's news answer, only MSFT's group is sent: its first sample is the MSFT price sample of 300.0 and every later one is a news sample; three requests are made. |
| `CollectorProperties.ScenarioRecordWithoutId` | main.go:110-127 | Of two records, one complete and one without an id, exactly the complete one yields a sample. |

## Left out

- `LoadConfig` (main.go:33-43): file reading and JSON decoding. The model starts from an already-loaded symbol list.
- `main` (main.go:133-160): flag parsing, building and authenticating the Finnhub client, registering the collector and serving HTTP. Its check for an empty symbol list is not needed: `Collect` is modelled for every list, the empty one included.
- `Describe` (main.go:63-65): it only re-runs `Collect` to see which descriptors are used. Instead, `EveryMetricWellShaped` shows that only `stock_price` and `stock_company_news` can be used.
- The `ctx` field of the collector: it is only passed along to the client. Its cancellation and deadlines belong to the HTTP transport, which is not part of this model.
- The provider's transport. Its answers are given functions held in a `const` of the client, so the model assumes they are fixed for the client's whole lifetime, across scrapes, not only within one scrape. `ScrapeTwice`'s two equal halves rest on this; a provider whose answers change between scrapes is not modelled.
- The clock: "today" (`time.Now().Format`) is a parameter of `Collect`. The news timestamp is the record's raw unix seconds, without the `time.Unix` conversion.
- The price is a `real` passed through unchanged. The float32-to-float64 conversion is not modelled.
- The library's metric construction: `MustNewConstMetric` panics and `NewDesc` validation are not modelled. A panic on a label-count mismatch cannot occur, by `EveryMetricWellShaped`.
- All `fmt.Printf`/`log.Printf` diagnostics.
- Concurrent scrapes and channel blocking: sending is an ordered append.
- The other fields of the provider's quote and news records: the collector never reads them.
