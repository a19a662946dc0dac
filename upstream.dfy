/**
 * The market-data provider as the collector sees it. The provider's answers
 * are given as two total functions of the request, so that a scrape is a
 * deterministic transformation of them; the client records every request it
 * makes so that the fetch behaviour of a scrape can be stated.
 */
module Upstream {
  import opened Wrappers

  /** Go's `int64`, the type of the provider's `Datetime` and `Id` fields. */
  type Int64 = x: int | -0x8000_0000_0000_0000 <= x < 0x8000_0000_0000_0000

  /** A quote; only the current price `c` is read by the collector, and it may be absent. */
  datatype Quote = Quote(c: Option<real>)

  /** One company-news record; each of the four fields the collector reads may be absent. */
  datatype CompanyNews = CompanyNews(
    datetime: Option<Int64>,
    headline: Option<string>,
    id: Option<Int64>,
    url: Option<string>)

  datatype QuoteResult = QuoteFailed(err: string) | QuoteOk(quote: Quote)

  datatype NewsResult = NewsFailed(err: string) | NewsOk(news: seq<CompanyNews>)

  /** What the provider answers: a quote per symbol, and the news per symbol and date range. */
  datatype Provider = Provider(
    quote: string -> QuoteResult,
    companyNews: (string, string, string) -> NewsResult)

  /** One request sent upstream. */
  datatype Call = QuoteCall(symbol: string) | CompanyNewsCall(symbol: string, from: string, to: string)

  /** The provider's API client, with the log of the requests made through it. */
  class Client {
    const provider: Provider
    var calls: seq<Call>

    constructor (provider: Provider)
      ensures this.provider == provider && calls == []
    {
      this.provider := provider;
      calls := [];
    }

    /** `Quote(ctx).Symbol(symbol).Execute()`. */
    method GetQuote(symbol: string) returns (r: QuoteResult)
      modifies this
      ensures r == provider.quote(symbol)
      ensures calls == old(calls) + [QuoteCall(symbol)]
    {
      r := provider.quote(symbol);
      calls := calls + [QuoteCall(symbol)];
    }

    /** `CompanyNews(ctx).Symbol(symbol).From(from).To(to).Execute()`. */
    method GetCompanyNews(symbol: string, from: string, to: string) returns (r: NewsResult)
      modifies this
      ensures r == provider.companyNews(symbol, from, to)
      ensures calls == old(calls) + [CompanyNewsCall(symbol, from, to)]
    {
      r := provider.companyNews(symbol, from, to);
      calls := calls + [CompanyNewsCall(symbol, from, to)];
    }
  }
}
