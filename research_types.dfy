/** The records the client and the edge function exchange (src/types/research.ts). */
module ResearchTypes {

  /** The narrative part of a report, produced by the language model. */
  datatype CompanyBrief = CompanyBrief(
    overview: string,
    businessModel: string,
    financials: string,
    risks: seq<string>,
    opportunities: seq<string>)

  datatype KeyMetrics = KeyMetrics(marketCap: string, peRatio: string, sector: string)

  /** A peer company proposed by the language model; the score is meant to lie in 0..100. */
  datatype ComparableCompany = ComparableCompany(
    companyName: string,
    ticker: string,
    similarityScore: int,
    reasoning: string,
    keyMetrics: KeyMetrics)

  /** The fundamentals copied into a report, as the provider's free-form strings. */
  datatype CompanyRawData = CompanyRawData(
    sector: string,
    industry: string,
    marketCap: string,
    peRatio: string,
    eps: string,
    revenue: string,
    profitMargin: string,
    operatingMargin: string,
    roe: string,
    beta: string,
    high52Week: string,
    low52Week: string,
    dividendYield: string)

  datatype CompanyReport = CompanyReport(
    ticker: string,
    companyName: string,
    rawData: CompanyRawData,
    brief: CompanyBrief,
    comparables: seq<ComparableCompany>,
    newsCount: nat,
    analyzedAt: string)

  datatype AnalysisStep = Idle | Fetching | Analyzing | Generating | Complete | Error

  /** A row of the `company_reports` table as the client inserts it. */
  datatype SavedReport = SavedReport(
    userId: string,
    ticker: string,
    companyName: string,
    reportData: CompanyBrief,
    comparableCompanies: seq<ComparableCompany>)
}
