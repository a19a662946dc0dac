/**
 * The stocks collector: on every scrape it walks the configured symbols in
 * order, fetches each symbol's quote and that day's company news, and sends
 * one price sample and one timestamped news sample per complete news record.
 * The pure functions below say what one scrape sends and which requests it
 * makes; `StocksCollector.Collect` is proved to do exactly that.
 */
module Collector {
  import opened Wrappers
  import opened Decimal
  import opened Upstream
  import opened Metrics

  const CompanyNewsDesc: Desc := Desc("stock_company_news", "Stocks - Company News", ["symbol", "headline", "url", "id"])
  const StockPriceDesc: Desc := Desc("stock_price", "Stocks - Symbol price", ["symbol"])

  /**
   * The two descriptors have distinct names, the label names of each are
   * pairwise distinct, and both name the symbol label first.
   */
  lemma DescriptorsWellFormed()
    ensures StockPriceDesc.fqName != CompanyNewsDesc.fqName
    ensures forall a, b :: 0 <= a < b < |CompanyNewsDesc.variableLabels| ==>
              CompanyNewsDesc.variableLabels[a] != CompanyNewsDesc.variableLabels[b]
    ensures |StockPriceDesc.variableLabels| == 1 && |CompanyNewsDesc.variableLabels| == 4
    ensures StockPriceDesc.variableLabels[0] == CompanyNewsDesc.variableLabels[0] == "symbol"
  {
  }

  /** A news record is used only when all four fields the collector reads are present. */
  predicate IsComplete(n: CompanyNews) {
    n.datetime.Some? && n.headline.Some? && n.id.Some? && n.url.Some?
  }

  /** The price sample of a symbol: the price as value, the symbol as label, scrape-time timestamp. */
  function PriceMetric(symbol: string, price: real): (m: Metric)
    ensures LabelsMatch(m) && m.desc == StockPriceDesc && m.labelValues[0] == symbol
    ensures m.value == price && m.timestamp == ScrapeTime
  {
    Metric(StockPriceDesc, price, [symbol], ScrapeTime)
  }

  /** The news sample of a complete record. */
  function NewsMetric(symbol: string, n: CompanyNews): (m: Metric)
    requires IsComplete(n)
    ensures LabelsMatch(m) && m.desc == CompanyNewsDesc && m.value == 1.0
    ensures m.labelValues[0] == symbol
    ensures m.labelValues[1] == n.headline.value && m.labelValues[2] == n.url.value
    ensures m.labelValues[3] == IntToDecimal(n.id.value)
    ensures ParseDecimal(m.labelValues[3]) == Some(n.id.value as int)
    ensures m.timestamp == At(n.datetime.value)
  {
    IntRoundTrip(n.id.value);
    Metric(CompanyNewsDesc, 1.0,
           [symbol, n.headline.value, n.url.value, IntToDecimal(n.id.value)],
           At(n.datetime.value))
  }

  /** The samples a batch of news records yields: the complete ones, in provider order. */
  function NewsMetrics(symbol: string, news: seq<CompanyNews>): seq<Metric> {
    if news == [] then []
    else
      var last := news[|news| - 1];
      NewsMetrics(symbol, news[..|news| - 1]) + (if IsComplete(last) then [NewsMetric(symbol, last)] else [])
  }

  /** The price sample of a quote, if it carries a price. */
  function PriceMetrics(symbol: string, q: Quote): seq<Metric> {
    if q.c.None? then [] else [PriceMetric(symbol, q.c.value)]
  }

  /**
   * Everything one symbol contributes to a scrape: nothing when its quote
   * fails; otherwise its price sample, if any, then its news samples, if the
   * news request succeeds.
   */
  function SymbolMetrics(symbol: string, p: Provider, today: string): seq<Metric> {
    match p.quote(symbol)
    case QuoteFailed(_) => []
    case QuoteOk(q) =>
      match p.companyNews(symbol, today, today)
      case NewsFailed(_) => PriceMetrics(symbol, q)
      case NewsOk(news) => PriceMetrics(symbol, q) + NewsMetrics(symbol, news)
  }

  /** The requests one symbol costs: its quote, then its news only when the quote succeeded. */
  function SymbolCalls(symbol: string, p: Provider, today: string): seq<Call> {
    if p.quote(symbol).QuoteOk? then [QuoteCall(symbol), CompanyNewsCall(symbol, today, today)]
    else [QuoteCall(symbol)]
  }

  /** The samples one scrape sends for the given symbols, group by group in symbol order. */
  function ScrapeMetrics(symbols: seq<string>, p: Provider, today: string): seq<Metric> {
    if symbols == [] then []
    else ScrapeMetrics(symbols[..|symbols| - 1], p, today) + SymbolMetrics(symbols[|symbols| - 1], p, today)
  }

  /** The requests one scrape makes for the given symbols, in order. */
  function ScrapeCalls(symbols: seq<string>, p: Provider, today: string): seq<Call> {
    if symbols == [] then []
    else ScrapeCalls(symbols[..|symbols| - 1], p, today) + SymbolCalls(symbols[|symbols| - 1], p, today)
  }

  lemma AppendAssoc<T>(a: seq<T>, b: seq<T>, c: seq<T>)
    ensures (a + b) + c == a + (b + c)
  {
  }

  lemma AppendNil<T>(a: seq<T>)
    ensures a + [] == a
  {
  }

  /** How a scrape's samples and requests grow by one symbol. */
  lemma ScrapeStep(symbols: seq<string>, i: nat, p: Provider, today: string)
    requires i < |symbols|
    ensures ScrapeMetrics(symbols[..i + 1], p, today) == ScrapeMetrics(symbols[..i], p, today) + SymbolMetrics(symbols[i], p, today)
    ensures ScrapeCalls(symbols[..i + 1], p, today) == ScrapeCalls(symbols[..i], p, today) + SymbolCalls(symbols[i], p, today)
  {
    assert symbols[..i + 1][..i] == symbols[..i];
  }

  /**
   * Closes one step of the scrape loop: if the samples and requests so far
   * are those of the first `i` symbols followed by those of symbol `i`, they
   * are those of the first `i + 1` symbols.
   */
  lemma ExtendedBySymbol(sent0: seq<Metric>, called0: seq<Call>, symbols: seq<string>, i: nat, p: Provider, today: string,
                         sent: seq<Metric>, called: seq<Call>)
    requires i < |symbols|
    requires sent == (sent0 + ScrapeMetrics(symbols[..i], p, today)) + SymbolMetrics(symbols[i], p, today)
    requires called == (called0 + ScrapeCalls(symbols[..i], p, today)) + SymbolCalls(symbols[i], p, today)
    ensures sent == sent0 + ScrapeMetrics(symbols[..i + 1], p, today)
    ensures called == called0 + ScrapeCalls(symbols[..i + 1], p, today)
  {
    ScrapeStep(symbols, i, p, today);
    AppendAssoc(sent0, ScrapeMetrics(symbols[..i], p, today), SymbolMetrics(symbols[i], p, today));
    AppendAssoc(called0, ScrapeCalls(symbols[..i], p, today), SymbolCalls(symbols[i], p, today));
  }

  /** How the samples of a news batch grow by one record. */
  lemma NewsStep(symbol: string, news: seq<CompanyNews>, j: nat)
    requires j < |news|
    ensures NewsMetrics(symbol, news[..j + 1])
            == NewsMetrics(symbol, news[..j]) + (if IsComplete(news[j]) then [NewsMetric(symbol, news[j])] else [])
  {
    assert news[..j + 1][..j] == news[..j];
  }

  /**
   * The collector. Its client and symbol list are fixed when it is built;
   * it keeps no other state, so nothing is carried from one scrape to the next.
   */
  class StocksCollector {
    const client: Client
    const symbols: seq<string>

    constructor (client: Client, symbols: seq<string>)
      ensures this.client == client && this.symbols == symbols
    {
      this.client := client;
      this.symbols := symbols;
    }

    /**
     * One scrape. `today` is the date both bounds of the news query use.
     * The samples sent and the requests made are exactly those of the
     * reference functions above, appended to what was there before.
     */
    method Collect(ch: Channel, today: string)
      modifies ch, client
      ensures ch.sent == old(ch.sent) + ScrapeMetrics(symbols, client.provider, today)
      ensures client.calls == old(client.calls) + ScrapeCalls(symbols, client.provider, today)
    {
      var from, to := today, today;
      ghost var p := client.provider;
      for i := 0 to |symbols|
        invariant ch.sent == old(ch.sent) + ScrapeMetrics(symbols[..i], p, today)
        invariant client.calls == old(client.calls) + ScrapeCalls(symbols[..i], p, today)
      {
        var sym := symbols[i];
        ghost var sent, called := ch.sent, client.calls;
        var resPrice := client.GetQuote(sym);
        if resPrice.QuoteFailed? {
          AppendNil(sent);
          ExtendedBySymbol(old(ch.sent), old(client.calls), symbols, i, p, today, ch.sent, client.calls);
          continue;
        }
        if resPrice.quote.c.None? {
          // a quote without a current price is skipped, not an error
        } else {
          ch.Send(PriceMetric(sym, resPrice.quote.c.value));
        }
        ghost var priced := ch.sent;
        assert priced == sent + PriceMetrics(sym, resPrice.quote);
        var resNews := client.GetCompanyNews(sym, from, to);
        if resNews.NewsFailed? {
          ExtendedBySymbol(old(ch.sent), old(client.calls), symbols, i, p, today, ch.sent, client.calls);
          continue;
        }
        SendNews(ch, sym, resNews.news);
        AppendAssoc(sent, PriceMetrics(sym, resPrice.quote), NewsMetrics(sym, resNews.news));
        ExtendedBySymbol(old(ch.sent), old(client.calls), symbols, i, p, today, ch.sent, client.calls);
      }
      assert symbols[..|symbols|] == symbols;
    }
  }

  /** Sends the news sample of every complete record of a batch, in provider order. */
  method SendNews(ch: Channel, symbol: string, news: seq<CompanyNews>)
    modifies ch
    ensures ch.sent == old(ch.sent) + NewsMetrics(symbol, news)
  {
    for j := 0 to |news|
      invariant ch.sent == old(ch.sent) + NewsMetrics(symbol, news[..j])
    {
      var n := news[j];
      NewsStep(symbol, news, j);
      if n.datetime.None? || n.headline.None? || n.id.None? || n.url.None? {
        continue;
      }
      ch.Send(NewsMetric(symbol, n));
    }
    assert news[..|news|] == news;
  }

  /**
   * Two scrapes in a row on the same day send the same samples twice and ask
   * the provider for everything twice: nothing is deduplicated or cached.
   */
  method ScrapeTwice(sc: StocksCollector, ch: Channel, today: string)
    modifies ch, sc.client
    ensures ch.sent == old(ch.sent) + ScrapeMetrics(sc.symbols, sc.client.provider, today)
                                    + ScrapeMetrics(sc.symbols, sc.client.provider, today)
    ensures sc.client.calls == old(sc.client.calls) + ScrapeCalls(sc.symbols, sc.client.provider, today)
                                                    + ScrapeCalls(sc.symbols, sc.client.provider, today)
  {
    sc.Collect(ch, today);
    sc.Collect(ch, today);
  }
}
