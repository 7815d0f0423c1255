/**
 * Currency display decisions (KSCurrency.java): whether an amount is shown
 * converted to US dollars, and whether the currency code accompanies the
 * symbol. The result of `Format` is what is handed to the number formatter
 * (the amount and the number options); the formatter itself is not part of
 * this model.
 */
module KSCurrency {
  import opened Common

  /** The current Config as far as currency display reads it. */
  datatype Config = Config(countryCode: string, currencyNeedsCode: string -> bool)

  /** The currency facts of a Project. */
  datatype ProjectCurrency = ProjectCurrency(
    country: string,
    currency: string,
    currencySymbol: string,
    staticUsdRate: Option<real>)

  /** java.math.RoundingMode. */
  datatype RoundingMode = Up | Down | Ceiling | Floor | HalfUp | HalfDown | HalfEven | Unnecessary

  /** The amount to print: as given, or the given value times the project's static USD rate. */
  datatype Amount = Local(value: real) | Converted(value: real, rate: real)

  datatype CurrencyOptions = CurrencyOptions(country: string, currencyCode: string, currencySymbol: string, value: Amount)

  datatype NumberOptions = NumberOptions(currencyCode: string, currencySymbol: string, roundingMode: RoundingMode)

  /** The arguments of the NumberUtils.format call that produces the displayed string. */
  datatype FormatCall = FormatCall(value: Amount, options: NumberOptions)

  /** The three conditions under which an amount is shown in US dollars. */
  predicate ConvertsToUsd(config: Config, project: ProjectCurrency, preferUsd: bool)
  {
    preferUsd && config.countryCode == "US" && project.staticUsdRate.Some?
  }

  function CurrencyOptionsFor(config: Config, value: real, project: ProjectCurrency, preferUsd: bool): (o: CurrencyOptions)
    ensures o.value.Converted? <==> ConvertsToUsd(config, project, preferUsd)
    ensures o.value.Converted? ==>
      o.country == "US" && o.currencySymbol == "$" && o.currencyCode == "" &&
      o.value == Converted(value, project.staticUsdRate.value)
    ensures o.value.Local? ==>
      o.country == project.country && o.currencyCode == project.currency &&
      o.currencySymbol == project.currencySymbol && o.value == Local(value)
  {
    if ConvertsToUsd(config, project, preferUsd) then
      CurrencyOptions("US", "", "$", Converted(value, project.staticUsdRate.value))
    else
      CurrencyOptions(project.country, project.currency, project.currencySymbol, Local(value))
  }

  /**
   * The code is never shown when excluded; otherwise it is shown exactly when
   * the symbol is ambiguous and the user or the amount's country is not the US.
   */
  function ShowCurrencyCode(config: Config, options: CurrencyOptions, excludeCurrencyCode: bool): (show: bool)
    ensures excludeCurrencyCode ==> !show
    ensures !excludeCurrencyCode ==>
      (show <==> config.currencyNeedsCode(options.currencySymbol) &&
                 !(config.countryCode == "US" && options.country == "US"))
  {
    if excludeCurrencyCode then false
    else
      var currencyIsDupe := config.currencyNeedsCode(options.currencySymbol);
      var userIsUS := config.countryCode == "US";
      var projectIsUS := options.country == "US";
      (currencyIsDupe && !userIsUS) || (currencyIsDupe && !projectIsUS)
  }

  /** format(initialValue, project, excludeCurrencyCode, preferUSD, roundingMode). */
  function Format(config: Config, value: real, project: ProjectCurrency,
                  excludeCurrencyCode: bool, preferUsd: bool, roundingMode: RoundingMode): FormatCall
  {
    var options := CurrencyOptionsFor(config, value, project, preferUsd);
    var show := ShowCurrencyCode(config, options, excludeCurrencyCode);
    FormatCall(options.value, NumberOptions(if show then options.currencyCode else "", options.currencySymbol, roundingMode))
  }

  /** format(initialValue, project). */
  function FormatDefault(config: Config, value: real, project: ProjectCurrency): FormatCall
  {
    Format(config, value, project, false, false, Down)
  }

  /** format(initialValue, project, excludeCurrencyCode). */
  function FormatExcluding(config: Config, value: real, project: ProjectCurrency, excludeCurrencyCode: bool): FormatCall
  {
    Format(config, value, project, excludeCurrencyCode, false, Down)
  }

  /**
   * What the formatter receives: the requested rounding; the dollar amount and
   * "$" with no code when converting; otherwise the project's own amount and
   * symbol, with its code exactly when the code is shown.
   */
  lemma FormatPassesDecisions(config: Config, value: real, project: ProjectCurrency,
                              excludeCurrencyCode: bool, preferUsd: bool, roundingMode: RoundingMode)
    ensures var call := Format(config, value, project, excludeCurrencyCode, preferUsd, roundingMode);
      call.options.roundingMode == roundingMode &&
      (ConvertsToUsd(config, project, preferUsd) ==>
         call.value == Converted(value, project.staticUsdRate.value) &&
         call.options.currencySymbol == "$" && call.options.currencyCode == "") &&
      (!ConvertsToUsd(config, project, preferUsd) ==>
         call.value == Local(value) && call.options.currencySymbol == project.currencySymbol &&
         call.options.currencyCode ==
           (if !excludeCurrencyCode && config.currencyNeedsCode(project.currencySymbol) &&
               !(config.countryCode == "US" && project.country == "US")
            then project.currency else ""))
  {
  }

  /** Excluding the code always leaves the code out, whatever else holds. */
  lemma ExcludedCodeIsEmpty(config: Config, value: real, project: ProjectCurrency,
                            preferUsd: bool, roundingMode: RoundingMode)
    ensures Format(config, value, project, true, preferUsd, roundingMode).options.currencyCode == ""
  {
  }

  /** A code is only ever printed for an unconverted amount, and it is the project's currency. */
  lemma ShownCodeIsProjectCurrency(config: Config, value: real, project: ProjectCurrency,
                                   excludeCurrencyCode: bool, preferUsd: bool, roundingMode: RoundingMode)
    ensures var call := Format(config, value, project, excludeCurrencyCode, preferUsd, roundingMode);
      call.options.currencyCode != "" ==> call.value.Local? && call.options.currencyCode == project.currency
  {
  }

  /** The two short overloads never convert to dollars and always round down. */
  lemma ShortOverloadsKeepLocalAndRoundDown(config: Config, value: real, project: ProjectCurrency, excludeCurrencyCode: bool)
    ensures FormatDefault(config, value, project) == FormatExcluding(config, value, project, false)
    ensures var call := FormatExcluding(config, value, project, excludeCurrencyCode);
      call.value == Local(value) && call.options.roundingMode == Down &&
      call.options.currencySymbol == project.currencySymbol
  {
  }
}
