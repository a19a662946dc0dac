/**
 * What one scrape promises, stated over the reference functions that
 * `StocksCollector.Collect` is proved to follow: grouping by symbol,
 * isolation of per-symbol failures, filtering of incomplete news records,
 * the shape of every sample, and which requests are made in which order.
 */
module CollectorProperties {
  import opened Wrappers
  import opened Decimal
  import opened Upstream
  import opened Metrics
  import opened Collector

  // ---------------------------------------------------------------------------
  // Grouping by symbol

  /** A scrape over `a + b` is the scrape over `a` followed by the scrape over `b`. */
  lemma {:induction false} ScrapeAppend(a: seq<string>, b: seq<string>, p: Provider, today: string)
    ensures ScrapeMetrics(a + b, p, today) == ScrapeMetrics(a, p, today) + ScrapeMetrics(b, p, today)
    ensures ScrapeCalls(a + b, p, today) == ScrapeCalls(a, p, today) + ScrapeCalls(b, p, today)
    decreases |b|
  {
    if b == [] {
      assert a + b == a;
      AppendNil(ScrapeMetrics(a, p, today));
      AppendNil(ScrapeCalls(a, p, today));
    } else {
      var init, last := b[..|b| - 1], b[|b| - 1];
      assert (a + b)[..|a + b| - 1] == a + init;
      assert (a + b)[|a + b| - 1] == last;
      ScrapeAppend(a, init, p, today);
      AppendAssoc(ScrapeMetrics(a, p, today), ScrapeMetrics(init, p, today), SymbolMetrics(last, p, today));
      AppendAssoc(ScrapeCalls(a, p, today), ScrapeCalls(init, p, today), SymbolCalls(last, p, today));
    }
  }

  /**
   * Whatever happens to the symbols around it, a symbol contributes exactly
   * its own group of samples and requests, in its configured position.
   */
  lemma ScrapeDecomposes(pre: seq<string>, symbol: string, post: seq<string>, p: Provider, today: string)
    ensures ScrapeMetrics(pre + [symbol] + post, p, today)
            == ScrapeMetrics(pre, p, today) + SymbolMetrics(symbol, p, today) + ScrapeMetrics(post, p, today)
    ensures ScrapeCalls(pre + [symbol] + post, p, today)
            == ScrapeCalls(pre, p, today) + SymbolCalls(symbol, p, today) + ScrapeCalls(post, p, today)
  {
    ScrapeAppend(pre + [symbol], post, p, today);
    ScrapeAppend(pre, [symbol], p, today);
    assert [symbol][..0] == [];
  }

  /**
   * A symbol's group depends only on the provider's answers for that symbol:
   * two providers that agree on its quote and on its news for `today` give
   * it the same samples and the same requests.
   */
  lemma SymbolGroupLocal(symbol: string, p: Provider, q: Provider, today: string)
    requires p.quote(symbol) == q.quote(symbol)
    requires p.companyNews(symbol, today, today) == q.companyNews(symbol, today, today)
    ensures SymbolMetrics(symbol, p, today) == SymbolMetrics(symbol, q, today)
    ensures SymbolCalls(symbol, p, today) == SymbolCalls(symbol, q, today)
  {
  }

  // ---------------------------------------------------------------------------
  // Per-symbol failure isolation

  /** A failed quote drops the symbol entirely, costs one request, and the next symbol is processed. */
  lemma QuoteFailureSkipsSymbol(pre: seq<string>, symbol: string, post: seq<string>, p: Provider, today: string)
    requires p.quote(symbol).QuoteFailed?
    ensures ScrapeMetrics(pre + [symbol] + post, p, today) == ScrapeMetrics(pre, p, today) + ScrapeMetrics(post, p, today)
    ensures ScrapeCalls(pre + [symbol] + post, p, today)
            == ScrapeCalls(pre, p, today) + [QuoteCall(symbol)] + ScrapeCalls(post, p, today)
  {
    ScrapeDecomposes(pre, symbol, post, p, today);
    AppendNil(ScrapeMetrics(pre, p, today));
  }

  /** A quote without a price drops only the price sample; the news is still fetched and sent. */
  lemma AbsentPriceKeepsNews(pre: seq<string>, symbol: string, post: seq<string>, p: Provider, today: string)
    requires p.quote(symbol).QuoteOk? && p.quote(symbol).quote.c.None?
    ensures var r := p.companyNews(symbol, today, today);
            ScrapeMetrics(pre + [symbol] + post, p, today)
            == ScrapeMetrics(pre, p, today) + (if r.NewsOk? then NewsMetrics(symbol, r.news) else [])
               + ScrapeMetrics(post, p, today)
    ensures ScrapeCalls(pre + [symbol] + post, p, today)
            == ScrapeCalls(pre, p, today) + [QuoteCall(symbol), CompanyNewsCall(symbol, today, today)]
               + ScrapeCalls(post, p, today)
  {
    ScrapeDecomposes(pre, symbol, post, p, today);
    var r := p.companyNews(symbol, today, today);
    if r.NewsOk? {
      assert [] + NewsMetrics(symbol, r.news) == NewsMetrics(symbol, r.news);
    }
  }

  /** A failed news request keeps the price sample already sent and drops only the news. */
  lemma NewsFailureKeepsPrice(pre: seq<string>, symbol: string, post: seq<string>, p: Provider, today: string)
    requires p.quote(symbol).QuoteOk? && p.companyNews(symbol, today, today).NewsFailed?
    ensures ScrapeMetrics(pre + [symbol] + post, p, today)
            == ScrapeMetrics(pre, p, today) + PriceMetrics(symbol, p.quote(symbol).quote) + ScrapeMetrics(post, p, today)
    ensures ScrapeCalls(pre + [symbol] + post, p, today)
            == ScrapeCalls(pre, p, today) + [QuoteCall(symbol), CompanyNewsCall(symbol, today, today)]
               + ScrapeCalls(post, p, today)
  {
    ScrapeDecomposes(pre, symbol, post, p, today);
  }

  // ---------------------------------------------------------------------------
  // News filtering

  /** The number of complete records in a batch. */
  function CountComplete(news: seq<CompanyNews>): nat {
    if news == [] then 0
    else CountComplete(news[..|news| - 1]) + (if IsComplete(news[|news| - 1]) then 1 else 0)
  }

  /**
   * Every complete record yields exactly one sample, in provider order: the
   * record at index i is the sample numbered by how many complete records
   * precede it, and there are no other samples.
   */
  lemma {:induction false} NewsMetricsInOrder(symbol: string, news: seq<CompanyNews>)
    ensures |NewsMetrics(symbol, news)| == CountComplete(news)
    ensures forall i :: 0 <= i < |news| && IsComplete(news[i]) ==>
              CountComplete(news[..i]) < |NewsMetrics(symbol, news)| &&
              NewsMetrics(symbol, news)[CountComplete(news[..i])] == NewsMetric(symbol, news[i])
    decreases |news|
  {
    if news != [] {
      var init := news[..|news| - 1];
      var out := NewsMetrics(symbol, news);
      NewsMetricsInOrder(symbol, init);
      forall i | 0 <= i < |news| && IsComplete(news[i])
        ensures CountComplete(news[..i]) < |out| && out[CountComplete(news[..i])] == NewsMetric(symbol, news[i])
      {
        if i < |init| {
          assert news[..i] == init[..i];
          assert news[i] == init[i];
        } else {
          assert news[..i] == init;
        }
      }
    }
  }

  /** Every news sample comes from a complete record of the batch. */
  lemma {:induction false} NewsMetricsSound(symbol: string, news: seq<CompanyNews>)
    ensures forall m :: m in NewsMetrics(symbol, news) ==>
              exists i :: 0 <= i < |news| && IsComplete(news[i]) && m == NewsMetric(symbol, news[i])
    decreases |news|
  {
    if news != [] {
      var init := news[..|news| - 1];
      NewsMetricsSound(symbol, init);
      forall m | m in NewsMetrics(symbol, news)
        ensures exists i :: 0 <= i < |news| && IsComplete(news[i]) && m == NewsMetric(symbol, news[i])
      {
        if m in NewsMetrics(symbol, init) {
          var i :| 0 <= i < |init| && IsComplete(init[i]) && m == NewsMetric(symbol, init[i]);
          assert news[i] == init[i];
        } else {
          assert news[|news| - 1] == news[|init|];
        }
      }
    }
  }

  // ---------------------------------------------------------------------------
  // Shape of every sample

  /**
   * A sample as the two descriptors allow it: a price sample, or a news
   * sample with value 1, an explicit timestamp and a decimal id; and in both
   * cases one label value per label name of its descriptor.
   */
  ghost predicate WellShaped(m: Metric) {
    && LabelsMatch(m)
    && (|| (m.desc == StockPriceDesc && m.timestamp == ScrapeTime)
        || (m.desc == CompanyNewsDesc && m.value == 1.0 && m.timestamp.At?
            && ParseDecimal(m.labelValues[3]).Some?))
  }

  /** The samples of one symbol are all labelled with it; a price sample can only come first. */
  lemma SymbolGroupShape(symbol: string, p: Provider, today: string)
    ensures var g := SymbolMetrics(symbol, p, today);
            forall k :: 0 <= k < |g| ==>
              && WellShaped(g[k]) && g[k].labelValues[0] == symbol
              && (g[k].desc == StockPriceDesc <==> k == 0 && p.quote(symbol).quote.c.Some?)
    ensures var r := p.quote(symbol);
            r.QuoteOk? && r.quote.c.Some? ==>
              |SymbolMetrics(symbol, p, today)| > 0
              && SymbolMetrics(symbol, p, today)[0] == PriceMetric(symbol, r.quote.c.value)
  {
    match p.quote(symbol)
    case QuoteFailed(_) =>
    case QuoteOk(q) =>
      var price := PriceMetrics(symbol, q);
      match p.companyNews(symbol, today, today)
      case NewsFailed(_) =>
      case NewsOk(news) =>
        var g := price + NewsMetrics(symbol, news);
        NewsMetricsSound(symbol, news);
        forall k | |price| <= k < |g|
          ensures WellShaped(g[k]) && g[k].labelValues[0] == symbol && g[k].desc == CompanyNewsDesc
        {
          assert g[k] in NewsMetrics(symbol, news);
        }
  }

  /** Every sample of a scrape is well-shaped and labelled with a configured symbol. */
  lemma {:induction false} EveryMetricWellShaped(symbols: seq<string>, p: Provider, today: string)
    ensures forall m :: m in ScrapeMetrics(symbols, p, today) ==> WellShaped(m) && m.labelValues[0] in symbols
    decreases |symbols|
  {
    if symbols != [] {
      var init, last := symbols[..|symbols| - 1], symbols[|symbols| - 1];
      EveryMetricWellShaped(init, p, today);
      SymbolGroupShape(last, p, today);
      forall m | m in ScrapeMetrics(symbols, p, today)
        ensures WellShaped(m) && m.labelValues[0] in symbols
      {
        if m in ScrapeMetrics(init, p, today) {
          var k :| 0 <= k < |init| && init[k] == m.labelValues[0];
          assert symbols[k] == init[k];
        } else {
          var g := SymbolMetrics(last, p, today);
          var k :| 0 <= k < |g| && g[k] == m;
        }
      }
    }
  }

  // ---------------------------------------------------------------------------
  // Requests

  /** At least one and at most two requests per configured symbol. */
  lemma {:induction false} CallBounds(symbols: seq<string>, p: Provider, today: string)
    ensures |symbols| <= |ScrapeCalls(symbols, p, today)| <= 2 * |symbols|
    decreases |symbols|
  {
    if symbols != [] {
      CallBounds(symbols[..|symbols| - 1], p, today);
    }
  }

  /** The symbols of the quote requests in a request log, in order. */
  function QuoteSymbols(calls: seq<Call>): seq<string> {
    if calls == [] then []
    else QuoteSymbols(calls[..|calls| - 1])
         + (if calls[|calls| - 1].QuoteCall? then [calls[|calls| - 1].symbol] else [])
  }

  /** Every configured symbol is quoted exactly once, in configured order, whatever fails. */
  lemma {:induction false} EverySymbolQuoted(symbols: seq<string>, p: Provider, today: string)
    ensures QuoteSymbols(ScrapeCalls(symbols, p, today)) == symbols
    decreases |symbols|
  {
    if symbols != [] {
      var init, last := symbols[..|symbols| - 1], symbols[|symbols| - 1];
      var before := ScrapeCalls(init, p, today);
      EverySymbolQuoted(init, p, today);
      var withQuote := before + [QuoteCall(last)];
      assert withQuote[..|withQuote| - 1] == before;
      if p.quote(last).QuoteOk? {
        var all := before + [QuoteCall(last), CompanyNewsCall(last, today, today)];
        assert all[..|all| - 1] == withQuote;
        AppendNil(QuoteSymbols(withQuote));
      }
      assert symbols == init + [last];
    }
  }

  /**
   * In a request log, every news request comes right after a quote request
   * for the same symbol whose answer was a success, and asks for `today` as
   * both bounds.
   */
  ghost predicate NewsCallsFollowQuotes(calls: seq<Call>, p: Provider, today: string) {
    forall j :: 0 <= j < |calls| && calls[j].CompanyNewsCall? ==>
      && j > 0 && calls[j - 1] == QuoteCall(calls[j].symbol)
      && p.quote(calls[j].symbol).QuoteOk?
      && calls[j].from == today && calls[j].to == today
  }

  /** A news request is made only after its symbol's quote request succeeded. */
  lemma {:induction false} NewsCallFollowsQuote(symbols: seq<string>, p: Provider, today: string)
    ensures NewsCallsFollowQuotes(ScrapeCalls(symbols, p, today), p, today)
    decreases |symbols|
  {
    if symbols != [] {
      var init, last := symbols[..|symbols| - 1], symbols[|symbols| - 1];
      NewsCallFollowsQuote(init, p, today);
      var before := ScrapeCalls(init, p, today);
      var calls := ScrapeCalls(symbols, p, today);
      assert calls == before + SymbolCalls(last, p, today);
      forall j | 0 <= j < |calls| && calls[j].CompanyNewsCall?
        ensures && j > 0 && calls[j - 1] == QuoteCall(calls[j].symbol)
                && p.quote(calls[j].symbol).QuoteOk?
                && calls[j].from == today && calls[j].to == today
      {
        if j < |before| {
          assert calls[j] == before[j];
          assert calls[j - 1] == before[j - 1];
        } else {
          assert p.quote(last).QuoteOk? && j == |before| + 1;
        }
      }
    }
  }

  // ---------------------------------------------------------------------------
  // Scenarios

  /**
   * Two symbols, the first quote fails, the second carries price 300.0:
   * whatever MSFT's news answer, only MSFT's group is sent, its first sample
   * is the one price sample, and all later ones are news samples.
   */
  lemma ScenarioFirstQuoteFails(p: Provider, today: string)
    requires p.quote("AAPL").QuoteFailed?
    requires p.quote("MSFT") == QuoteOk(Quote(Some(300.0)))
    ensures var g := ScrapeMetrics(["AAPL", "MSFT"], p, today);
            && g == SymbolMetrics("MSFT", p, today)
            && |g| > 0 && g[0] == PriceMetric("MSFT", 300.0)
            && forall k :: 0 < k < |g| ==> g[k].desc == CompanyNewsDesc
    ensures ScrapeCalls(["AAPL", "MSFT"], p, today)
            == [QuoteCall("AAPL"), QuoteCall("MSFT"), CompanyNewsCall("MSFT", today, today)]
  {
    QuoteFailureSkipsSymbol([], "AAPL", ["MSFT"], p, today);
    assert [] + ["AAPL"] + ["MSFT"] == ["AAPL", "MSFT"];
    assert ["MSFT"][..0] == [];
    assert ScrapeMetrics(["MSFT"], p, today) == SymbolMetrics("MSFT", p, today);
    SymbolGroupShape("MSFT", p, today);
    var g := SymbolMetrics("MSFT", p, today);
    forall k | 0 < k < |g|
      ensures g[k].desc == CompanyNewsDesc
    {
      assert WellShaped(g[k]) && g[k].desc != StockPriceDesc;
    }
  }

  /** Two records, the second without an id: exactly one news sample, for the first. */
  lemma ScenarioRecordWithoutId(symbol: string, complete: CompanyNews, noId: CompanyNews)
    requires IsComplete(complete)
    requires noId.id.None?
    ensures NewsMetrics(symbol, [complete, noId]) == [NewsMetric(symbol, complete)]
  {
    var news := [complete, noId];
    assert news[..1] == [complete];
    assert news[..1][..0] == [];
    assert NewsMetrics(symbol, news[..1]) == [NewsMetric(symbol, complete)];
    AppendNil(NewsMetrics(symbol, news[..1]));
  }
}
