/**
 * The fixed set of indicator names an overview lookup accepts (`indicatorTypeSet`).
 * It is built once and never changed; membership is the first gate of a
 * fundamental-data request. The source lists the 49 names in one set; here
 * they are split, in the source's order, into six smaller sets whose union is
 * that set. The split, and the group labels, are not the source's: they keep
 * each proof that a name is absent small, because the verifier compares the
 * name with one group's strings at a time (the `...InNoGroup` lemmas below).
 */
module IndicatorCatalog {
  /** Company profile. */
  const ProfileFields: set<string> := {
    "AssetType",
    "Description",
    "CIK",
    "Exchange",
    "Currency",
    "Country",
    "Sector",
    "Industry",
    "Address",
    "FiscalYearEnd",
    "LatestQuarter"
  }

  /** Size, earnings and dividends. */
  const FinancialFields: set<string> := {
    "MarketCapitalization",
    "EBITDA",
    "PERatio",
    "PEGRatio",
    "BookValue",
    "DividendPerShare",
    "DividendYield",
    "EPS",
    "RevenuePerShareTTM",
    "ProfitMargin"
  }

  /** Margins, returns and growth. */
  const ProfitabilityFields: set<string> := {
    "OperatingMarginTTM",
    "ReturnOnAssetsTTM",
    "ReturnOnEquityTTM",
    "RevenueTTM",
    "GrossProfitTTM",
    "DilutedEPSTTM",
    "QuarterlyEarningsGrowthYOY",
    "QuarterlyRevenueGrowthYOY"
  }

  /** Analyst targets and ratings. */
  const AnalystFields: set<string> := {
    "AnalystTargetPrice",
    "AnalystRatingStrongBuy",
    "AnalystRatingBuy",
    "AnalystRatingHold",
    "AnalystRatingSell",
    "AnalystRatingStrongSell"
  }

  /** Valuation ratios and beta. */
  const ValuationFields: set<string> := {
    "TrailingPE",
    "ForwardPE",
    "PriceToSalesRatioTTM",
    "PriceToBookRatio",
    "EVToRevenue",
    "EVToEBITDA",
    "Beta"
  }

  /** Trading statistics and dividend dates. */
  const TradingFields: set<string> := {
    "52WeekHigh",
    "52WeekLow",
    "50DayMovingAverage",
    "200DayMovingAverage",
    "SharesOutstanding",
    "DividendDate",
    "ExDividendDate"
  }

  const IndicatorTypes: set<string> :=
    ProfileFields + FinancialFields + ProfitabilityFields + AnalystFields + ValuationFields + TradingFields

  /** `indicatorType in indicatorTypeSet`: exact, case-sensitive membership. */
  predicate IsRecognized(name: string) {
    name in IndicatorTypes
  }

  /** A name outside every group is not recognised. */
  lemma NotInAnyGroup(name: string)
    requires name !in ProfileFields && name !in FinancialFields && name !in ProfitabilityFields
    requires name !in AnalystFields && name !in ValuationFields && name !in TradingFields
    ensures !IsRecognized(name)
  {
  }

  /**
   * The name under which a snapshot keeps its trading day, "LatestTradingDate",
   * is not an indicator, so a lookup never returns the cache's own tag.
   */
  lemma TradingDayTagNotRecognized()
    ensures !IsRecognized("LatestTradingDate")
  {
    TradingDayTagInNoGroup();
    NotInAnyGroup("LatestTradingDate");
  }

  lemma TradingDayTagInNoGroup()
    ensures var n := "LatestTradingDate";
      && n !in ProfileFields && n !in FinancialFields && n !in ProfitabilityFields
      && n !in AnalystFields && n !in ValuationFields && n !in TradingFields
  {
  }

  /** Nor are the provider's marker fields "Error Message" and "Note". */
  lemma MarkersNotRecognized()
    ensures !IsRecognized("Error Message") && !IsRecognized("Note")
  {
    ErrorMarkerInNoGroup();
    NotInAnyGroup("Error Message");
    NoteInNoGroup();
    NotInAnyGroup("Note");
  }

  lemma ErrorMarkerInNoGroup()
    ensures var n := "Error Message";
      && n !in ProfileFields && n !in FinancialFields && n !in ProfitabilityFields
      && n !in AnalystFields && n !in ValuationFields && n !in TradingFields
  {
  }

  lemma NoteInNoGroup()
    ensures var n := "Note";
      && n !in ProfileFields && n !in FinancialFields && n !in ProfitabilityFields
      && n !in AnalystFields && n !in ValuationFields && n !in TradingFields
  {
  }

  /** Membership is exact: a listed name is recognised, an unlisted or differently cased one is not. */
  lemma CatalogExamples()
    ensures IsRecognized("PERatio") && IsRecognized("200DayMovingAverage")
    ensures !IsRecognized("NotARealIndicator") && !IsRecognized("peratio")
  {
    assert "PERatio" in FinancialFields;
    assert "200DayMovingAverage" in TradingFields;
    UnlistedNamesInNoGroup();
    NotInAnyGroup("NotARealIndicator");
    NotInAnyGroup("peratio");
  }

  lemma UnlistedNamesInNoGroup()
    ensures var u := "NotARealIndicator";
      && u !in ProfileFields && u !in FinancialFields && u !in ProfitabilityFields
      && u !in AnalystFields && u !in ValuationFields && u !in TradingFields
    ensures var l := "peratio";
      && l !in ProfileFields && l !in FinancialFields && l !in ProfitabilityFields
      && l !in AnalystFields && l !in ValuationFields && l !in TradingFields
  {
  }
}
