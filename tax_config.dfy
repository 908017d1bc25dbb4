/** The per-country tax registry: the bracket/option/country records, the
    constant NL, US and GB configurations, and the first-match lookups over
    them (src/config/taxConfig.ts). */
module TaxConfig {
  import opened Wrappers

  /** A marginal `rate` (a percentage, 25 meaning 25%) applying above `threshold`. */
  datatype TaxBracket = TaxBracket(threshold: real, rate: real)

  datatype TaxType = Income | Wealth | CapitalGains

  /** One tax option of a country. `rate` and `brackets` are meant to be
      exclusive; `None` is TypeScript's `undefined`. */
  datatype TaxOption = TaxOption(
    id: string,
    name: string,
    taxType: TaxType,
    isDefault: bool,
    rate: Option<real>,
    brackets: Option<seq<TaxBracket>>,
    exemptionThreshold: Option<real>,
    notes: Option<string>)

  datatype CountryTaxConfig = CountryTaxConfig(
    countryCode: string,
    countryName: string,
    incomeTaxes: seq<TaxOption>,
    wealthTaxes: seq<TaxOption>,
    capitalGainsTaxes: seq<TaxOption>,
    sources: Option<seq<string>>)

  /** Thresholds strictly increase from each bracket to the next. */
  predicate StrictlyAscending(brackets: seq<TaxBracket>)
  {
    forall i :: 0 < i < |brackets| ==> brackets[i - 1].threshold < brackets[i].threshold
  }

  // ---------------------------------------------------------------------------
  // Country configurations (2024 data)
  // ---------------------------------------------------------------------------

  const NlTaxConfig := CountryTaxConfig(
    countryCode := "NL",
    countryName := "Netherlands",
    incomeTaxes := [
      TaxOption(
        id := "nl-box1", name := "Box 1 - Employment & Business Income",
        taxType := Income, isDefault := true,
        rate := None,
        brackets := Some([TaxBracket(0.0, 36.93), TaxBracket(73031.0, 49.5)]),
        exemptionThreshold := None,
        notes := Some("2024 rates for income from employment, business, and home ownership")),
      TaxOption(
        id := "nl-box2", name := "Box 2 - Substantial Interest",
        taxType := Income, isDefault := false,
        rate := Some(26.9), brackets := None, exemptionThreshold := None,
        notes := Some("For income from substantial shareholdings (5% or more)"))
    ],
    wealthTaxes := [
      TaxOption(
        id := "nl-box3-wealth", name := "Box 3 - Savings & Investments Tax",
        taxType := Wealth, isDefault := true,
        rate := Some(36.0), brackets := None, exemptionThreshold := Some(57000.0),
        notes := Some("Tax on deemed return from savings and investments. Exemption is per person (€57,000 in 2024). The deemed return is approximately 6%, taxed at 36%."))
    ],
    capitalGainsTaxes := [
      TaxOption(
        id := "nl-no-cgt", name := "No Separate Capital Gains Tax",
        taxType := CapitalGains, isDefault := true,
        rate := Some(0.0), brackets := None, exemptionThreshold := None,
        notes := Some("Capital gains are covered by Box 3 wealth tax"))
    ],
    sources := None)

  /** The 2024 US single-filer ordinary-income schedule, shared by two options. */
  const UsOrdinaryBrackets := [
    TaxBracket(0.0, 10.0),
    TaxBracket(11000.0, 12.0),
    TaxBracket(44725.0, 22.0),
    TaxBracket(95375.0, 24.0),
    TaxBracket(182100.0, 32.0),
    TaxBracket(231250.0, 35.0),
    TaxBracket(578125.0, 37.0)
  ]

  const UsTaxConfig := CountryTaxConfig(
    countryCode := "US",
    countryName := "United States",
    incomeTaxes := [
      TaxOption(
        id := "us-federal-single", name := "Federal Income Tax (Single Filer)",
        taxType := Income, isDefault := true,
        rate := None, brackets := Some(UsOrdinaryBrackets), exemptionThreshold := None,
        notes := Some("2024 federal tax brackets for single filers. Does not include state taxes."))
    ],
    wealthTaxes := [
      TaxOption(
        id := "us-no-wealth", name := "No Wealth Tax",
        taxType := Wealth, isDefault := true,
        rate := Some(0.0), brackets := None, exemptionThreshold := None,
        notes := Some("The United States does not have a federal wealth tax"))
    ],
    capitalGainsTaxes := [
      TaxOption(
        id := "us-ltcg-single", name := "Long-Term Capital Gains (Single Filer)",
        taxType := CapitalGains, isDefault := true,
        rate := None,
        brackets := Some([TaxBracket(0.0, 0.0), TaxBracket(44625.0, 15.0), TaxBracket(492300.0, 20.0)]),
        exemptionThreshold := None,
        notes := Some("2024 rates for assets held more than one year")),
      TaxOption(
        id := "us-stcg-single", name := "Short-Term Capital Gains (Single Filer)",
        taxType := CapitalGains, isDefault := false,
        rate := None, brackets := Some(UsOrdinaryBrackets), exemptionThreshold := None,
        notes := Some("Short-term gains (held less than one year) taxed as ordinary income"))
    ],
    sources := None)

  const GbTaxConfig := CountryTaxConfig(
    countryCode := "GB",
    countryName := "United Kingdom",
    incomeTaxes := [
      TaxOption(
        id := "gb-income", name := "Income Tax (England, Wales & NI)",
        taxType := Income, isDefault := true,
        rate := None,
        brackets := Some([TaxBracket(12570.0, 20.0), TaxBracket(50270.0, 40.0), TaxBracket(125140.0, 45.0)]),
        exemptionThreshold := Some(12570.0),
        notes := Some("2024/25 tax year. Personal allowance of £12,570. Scotland has different rates.")),
      TaxOption(
        id := "gb-scotland-income", name := "Income Tax (Scotland)",
        taxType := Income, isDefault := false,
        rate := None,
        brackets := Some([
          TaxBracket(12570.0, 19.0), TaxBracket(14876.0, 20.0), TaxBracket(26561.0, 21.0),
          TaxBracket(43662.0, 42.0), TaxBracket(125140.0, 47.0)]),
        exemptionThreshold := Some(12570.0),
        notes := Some("2024/25 tax year. Scottish income tax rates differ from rest of UK."))
    ],
    wealthTaxes := [
      TaxOption(
        id := "gb-no-wealth", name := "No Wealth Tax",
        taxType := Wealth, isDefault := true,
        rate := Some(0.0), brackets := None, exemptionThreshold := None,
        notes := Some("The UK does not have a general wealth tax"))
    ],
    capitalGainsTaxes := [
      TaxOption(
        id := "gb-cgt-basic", name := "Capital Gains Tax (Basic Rate)",
        taxType := CapitalGains, isDefault := true,
        rate := Some(10.0), brackets := None, exemptionThreshold := Some(3000.0),
        notes := Some("2024/25 annual exempt amount is £3,000. 10% rate for basic rate taxpayers on most assets.")),
      TaxOption(
        id := "gb-cgt-higher", name := "Capital Gains Tax (Higher Rate)",
        taxType := CapitalGains, isDefault := false,
        rate := Some(20.0), brackets := None, exemptionThreshold := Some(3000.0),
        notes := Some("20% rate for higher and additional rate taxpayers on most assets")),
      TaxOption(
        id := "gb-cgt-property-basic", name := "CGT on Residential Property (Basic Rate)",
        taxType := CapitalGains, isDefault := false,
        rate := Some(18.0), brackets := None, exemptionThreshold := Some(3000.0),
        notes := Some("18% rate for basic rate taxpayers on residential property gains")),
      TaxOption(
        id := "gb-cgt-property-higher", name := "CGT on Residential Property (Higher Rate)",
        taxType := CapitalGains, isDefault := false,
        rate := Some(24.0), brackets := None, exemptionThreshold := Some(3000.0),
        notes := Some("24% rate for higher rate taxpayers on residential property gains"))
    ],
    sources := None)

  /** The registry keyed by country code, in the order its keys were written
      (which is the order `Object.values` walks it). */
  const TaxConfigs: seq<(string, CountryTaxConfig)> :=
    [("NL", NlTaxConfig), ("US", UsTaxConfig), ("GB", GbTaxConfig)]

  // ---------------------------------------------------------------------------
  // Supported countries: the registry keys in default (code-unit) sort order
  // ---------------------------------------------------------------------------

  /** JavaScript's default string order: compare position by position, a
      proper prefix coming first. JavaScript compares UTF-16 code units; here
      the positions are Dafny characters, which agree with code units on
      every character outside the surrogate range (all registry keys are
      ASCII). */
  predicate CharLessEq(a: string, b: string)
    decreases |a|
  {
    |a| == 0 || (|b| > 0 && (a[0] < b[0] || (a[0] == b[0] && CharLessEq(a[1..], b[1..]))))
  }

  lemma {:induction false} CharOrderTotal(a: string, b: string)
    ensures CharLessEq(a, b) || CharLessEq(b, a)
    decreases |a|
  {
    if |a| > 0 && |b| > 0 && a[0] == b[0] {
      CharOrderTotal(a[1..], b[1..]);
    }
  }

  predicate CodesSorted(s: seq<string>)
  {
    forall i :: 0 < i < |s| ==> CharLessEq(s[i - 1], s[i])
  }

  /** Inserts `x` after every element that does not sort strictly after it. */
  function InsertCode(x: string, s: seq<string>): (r: seq<string>)
    ensures multiset(r) == multiset(s) + multiset{x}
    ensures |r| == |s| + 1
    ensures r[|r| - 1] == x || (|s| > 0 && r[|r| - 1] == s[|s| - 1])
    ensures CodesSorted(s) ==> CodesSorted(r)
  {
    if |s| == 0 then [x]
    else if !CharLessEq(s[|s| - 1], x) then
      CharOrderTotal(s[|s| - 1], x);
      var front := InsertCode(x, s[..|s| - 1]);
      assert s == s[..|s| - 1] + [s[|s| - 1]];
      front + [s[|s| - 1]]
    else
      s + [x]
  }

  function SortCodes(s: seq<string>): (r: seq<string>)
    ensures multiset(r) == multiset(s)
    ensures CodesSorted(r)
  {
    if |s| == 0 then []
    else
      assert s == s[..|s| - 1] + [s[|s| - 1]];
      InsertCode(s[|s| - 1], SortCodes(s[..|s| - 1]))
  }

  function Keys(entries: seq<(string, CountryTaxConfig)>): (r: seq<string>)
    ensures |r| == |entries|
    ensures forall i :: 0 <= i < |r| ==> r[i] == entries[i].0
  {
    if |entries| == 0 then [] else [entries[0].0] + Keys(entries[1..])
  }

  /** `SUPPORTED_COUNTRIES`: the registry keys, sorted. */
  function SupportedCountries(): (r: seq<string>)
    ensures CodesSorted(r)
    ensures multiset(r) == multiset(Keys(TaxConfigs))
  {
    SortCodes(Keys(TaxConfigs))
  }

  lemma SupportedCountriesValue()
    ensures SupportedCountries() == ["GB", "NL", "US"]
  {
    KeysValue();
    var keys: seq<string> := ["NL", "US", "GB"];
    assert keys[..2] == ["NL", "US"];
    SortNlUs();
    InsertGb();
  }

  lemma KeysValue()
    ensures Keys(TaxConfigs) == ["NL", "US", "GB"]
  {
    var rest1 := [("US", UsTaxConfig), ("GB", GbTaxConfig)];
    var rest2 := [("GB", GbTaxConfig)];
    assert TaxConfigs[1..] == rest1 && rest1[1..] == rest2 && rest2[1..] == [];
  }

  lemma SortNlUs()
    ensures SortCodes(["NL", "US"]) == ["NL", "US"]
  {
    assert ["NL", "US"][..1] == ["NL"] && ["NL"][..0] == [];
    assert SortCodes(["NL"]) == ["NL"];
    assert CharLessEq("NL", "US") by {
      assert "NL"[0] == 'N' && "US"[0] == 'U';
    }
  }

  lemma InsertGb()
    ensures InsertCode("GB", ["NL", "US"]) == ["GB", "NL", "US"]
  {
    assert !CharLessEq("US", "GB") && !CharLessEq("NL", "GB") by {
      assert "NL"[0] == 'N' && "US"[0] == 'U' && "GB"[0] == 'G';
    }
    assert ["NL", "US"][..1] == ["NL"];
    assert InsertCode("GB", ["NL"]) == ["GB", "NL"];
  }

  // ---------------------------------------------------------------------------
  // Lookups
  // ---------------------------------------------------------------------------

  /** Reads a property of the registry object: the entry with that key, if any. */
  function LookupConfig(entries: seq<(string, CountryTaxConfig)>, code: string): (r: Option<CountryTaxConfig>)
    ensures r.None? <==> forall i :: 0 <= i < |entries| ==> entries[i].0 != code
    ensures r.Some? ==> exists i :: 0 <= i < |entries| && entries[i] == (code, r.value)
  {
    if |entries| == 0 then None
    else if entries[0].0 == code then Some(entries[0].1)
    else
      var r := LookupConfig(entries[1..], code);
      assert r.Some? ==> exists i :: 0 <= i < |entries[1..]| && entries[1..][i] == (code, r.value);
      r
  }

  /** `getTaxConfig`. */
  function GetTaxConfig(countryCode: string): Option<CountryTaxConfig>
  {
    LookupConfig(TaxConfigs, countryCode)
  }

  lemma GetTaxConfigCases(countryCode: string)
    ensures GetTaxConfig(countryCode) ==
      if countryCode == "NL" then Some(NlTaxConfig)
      else if countryCode == "US" then Some(UsTaxConfig)
      else if countryCode == "GB" then Some(GbTaxConfig)
      else None
  {
    var rest1 := [("US", UsTaxConfig), ("GB", GbTaxConfig)];
    var rest2 := [("GB", GbTaxConfig)];
    assert TaxConfigs[1..] == rest1 && rest1[1..] == rest2 && rest2[1..] == [];
    assert LookupConfig(rest2, countryCode) == if countryCode == "GB" then Some(GbTaxConfig) else None;
    assert LookupConfig(rest1, countryCode) ==
      if countryCode == "US" then Some(UsTaxConfig) else LookupConfig(rest2, countryCode);
  }

  function OptionsOfType(config: CountryTaxConfig, taxType: TaxType): seq<TaxOption>
  {
    match taxType
    case Income => config.incomeTaxes
    case Wealth => config.wealthTaxes
    case CapitalGains => config.capitalGainsTaxes
  }

  /** `getTaxOptions`: the list of that kind, or `[]` for an unknown country. */
  function GetTaxOptions(countryCode: string, taxType: TaxType): seq<TaxOption>
  {
    match GetTaxConfig(countryCode)
    case None => []
    case Some(config) => OptionsOfType(config, taxType)
  }

  /** `options.find(option => option.isDefault)`. */
  function FirstDefault(options: seq<TaxOption>): (r: Option<TaxOption>)
    ensures r.None? <==> forall i :: 0 <= i < |options| ==> !options[i].isDefault
    ensures r.Some? ==> exists k :: 0 <= k < |options| && options[k] == r.value && r.value.isDefault &&
                                    forall j :: 0 <= j < k ==> !options[j].isDefault
  {
    if |options| == 0 then None
    else if options[0].isDefault then Some(options[0])
    else
      var r := FirstDefault(options[1..]);
      assert r.Some? ==> exists k :: 0 <= k < |options[1..]| && options[1..][k] == r.value &&
                                     forall j :: 0 <= j < k ==> !options[1..][j].isDefault;
      assert r.Some? ==> exists k :: 1 <= k < |options| && options[k] == r.value &&
                                     forall j :: 1 <= j < k ==> !options[j].isDefault;
      r
  }

  /** `getDefaultTaxOption`: what it finds is a default of the requested kind
      taken from the requested country's list of that kind, and it finds
      nothing exactly when that list holds no default. */
  function GetDefaultTaxOption(countryCode: string, taxType: TaxType): (r: Option<TaxOption>)
    ensures r.Some? ==> r.value in GetTaxOptions(countryCode, taxType)
    ensures r.None? <==> forall o :: o in GetTaxOptions(countryCode, taxType) ==> !o.isDefault
    ensures r.Some? ==> r.value.isDefault && r.value.taxType == taxType && r.value in RegistryOptions()
  {
    RegistryKindsMatch(countryCode, taxType);
    CountryOptionsInRegistry(countryCode, taxType);
    FirstDefault(GetTaxOptions(countryCode, taxType))
  }

  /** `allOptions.find(option => option.id === taxId)`. */
  function FindById(options: seq<TaxOption>, taxId: string): (r: Option<TaxOption>)
    ensures r.None? <==> forall i :: 0 <= i < |options| ==> options[i].id != taxId
    ensures r.Some? ==> exists k :: 0 <= k < |options| && options[k] == r.value && r.value.id == taxId &&
                                    forall j :: 0 <= j < k ==> options[j].id != taxId
  {
    if |options| == 0 then None
    else if options[0].id == taxId then Some(options[0])
    else
      var r := FindById(options[1..], taxId);
      assert r.Some? ==> exists k :: 0 <= k < |options[1..]| && options[1..][k] == r.value &&
                                     forall j :: 0 <= j < k ==> options[1..][j].id != taxId;
      assert r.Some? ==> exists k :: 1 <= k < |options| && options[k] == r.value &&
                                     forall j :: 1 <= j < k ==> options[j].id != taxId;
      r
  }

  /** Income, then wealth, then capital-gains options of one country. */
  function AllOptions(config: CountryTaxConfig): seq<TaxOption>
  {
    config.incomeTaxes + config.wealthTaxes + config.capitalGainsTaxes
  }

  /** Every option of one country, or none for an unknown code. */
  function CountryOptions(countryCode: string): seq<TaxOption>
  {
    match GetTaxConfig(countryCode)
    case None => []
    case Some(config) => AllOptions(config)
  }

  /** The loop over `Object.values(TAX_CONFIGS)`: the first country that has
      the id decides. */
  function FindAcross(entries: seq<(string, CountryTaxConfig)>, taxId: string): Option<TaxOption>
  {
    if |entries| == 0 then None
    else match FindById(AllOptions(entries[0].1), taxId)
      case Some(found) => Some(found)
      case None => FindAcross(entries[1..], taxId)
  }

  /** `findTaxOption`: scoped to a country when one is given (no fallback for
      an unknown one), otherwise a scan of all countries in registry order.
      What it finds carries the id and is an option of the registry; with a
      country it is one of that country's options, and it is found exactly
      when the searched options hold the id. */
  function FindTaxOption(taxId: string, countryCode: Option<string>): (r: Option<TaxOption>)
    ensures r.Some? ==> r.value.id == taxId && r.value in RegistryOptions()
    ensures Present(countryCode) && r.Some? ==> r.value in CountryOptions(countryCode.value)
    ensures Present(countryCode) ==>
      (r.Some? <==> exists o :: o in CountryOptions(countryCode.value) && o.id == taxId)
    ensures !Present(countryCode) ==>
      (r.Some? <==> exists o :: o in RegistryOptions() && o.id == taxId)
  {
    if Present(countryCode) then
      match GetTaxConfig(countryCode.value)
      case None => None
      case Some(config) =>
        CountryOptionsInRegistry(countryCode.value, Income);
        FindById(AllOptions(config), taxId)
    else
      FindAcrossIsFirstMatch(TaxConfigs, taxId);
      FindAcross(TaxConfigs, taxId)
  }

  // ---------------------------------------------------------------------------
  // Properties of the lookups
  // ---------------------------------------------------------------------------

  /** Every option of the registry, country by country in registry order. */
  function FlattenOptions(entries: seq<(string, CountryTaxConfig)>): seq<TaxOption>
  {
    if |entries| == 0 then [] else AllOptions(entries[0].1) + FlattenOptions(entries[1..])
  }

  function RegistryOptions(): seq<TaxOption>
  {
    FlattenOptions(TaxConfigs)
  }

  lemma {:induction false} FindByIdAppend(a: seq<TaxOption>, b: seq<TaxOption>, taxId: string)
    ensures FindById(a + b, taxId) == if FindById(a, taxId).Some? then FindById(a, taxId) else FindById(b, taxId)
  {
    if |a| > 0 {
      assert (a + b)[1..] == a[1..] + b;
      FindByIdAppend(a[1..], b, taxId);
    } else {
      assert a + b == b;
    }
  }

  /** The country-by-country scan is a first-match search over the whole
      registry taken in order. */
  lemma {:induction false} FindAcrossIsFirstMatch(entries: seq<(string, CountryTaxConfig)>, taxId: string)
    ensures FindAcross(entries, taxId) == FindById(FlattenOptions(entries), taxId)
  {
    if |entries| > 0 {
      FindAcrossIsFirstMatch(entries[1..], taxId);
      FindByIdAppend(AllOptions(entries[0].1), FlattenOptions(entries[1..]), taxId);
    }
  }

  /** Without a country, `findTaxOption` returns the first registry option
      carrying the id; with a supported country, the first of that country's
      options carrying it; with an unknown country it returns nothing. */
  lemma FindTaxOptionScope(taxId: string, countryCode: Option<string>)
    ensures !Present(countryCode) ==> FindTaxOption(taxId, countryCode) == FindById(RegistryOptions(), taxId)
    ensures Present(countryCode) ==>
      FindTaxOption(taxId, countryCode) == FindById(CountryOptions(countryCode.value), taxId)
    ensures Present(countryCode) && GetTaxConfig(countryCode.value).None? ==> FindTaxOption(taxId, countryCode).None?
  {
    FindAcrossIsFirstMatch(TaxConfigs, taxId);
  }

  lemma RegistryOptionsValue()
    ensures RegistryOptions() ==
      AllOptions(NlTaxConfig) + AllOptions(UsTaxConfig) + AllOptions(GbTaxConfig)
  {
    var rest1 := [("US", UsTaxConfig), ("GB", GbTaxConfig)];
    var rest2 := [("GB", GbTaxConfig)];
    assert TaxConfigs[1..] == rest1 && rest1[1..] == rest2 && rest2[1..] == [];
    assert FlattenOptions(rest2) == AllOptions(GbTaxConfig) + FlattenOptions([]);
    assert FlattenOptions(rest1) == AllOptions(UsTaxConfig) + FlattenOptions(rest2);
    assert FlattenOptions(TaxConfigs) == AllOptions(NlTaxConfig) + FlattenOptions(rest1);
  }

  /** A country's options all belong to the registry. */
  lemma CountryOptionsInRegistry(countryCode: string, taxType: TaxType)
    ensures forall o :: o in GetTaxOptions(countryCode, taxType) ==> o in RegistryOptions()
    ensures GetTaxConfig(countryCode).Some? ==>
      forall o :: o in AllOptions(GetTaxConfig(countryCode).value) ==> o in RegistryOptions()
  {
    GetTaxConfigCases(countryCode);
    RegistryOptionsValue();
  }

  // ---------------------------------------------------------------------------
  // Registry invariants stated by the type's documentation
  // ---------------------------------------------------------------------------

  /** Every option's `taxType` is the kind of the list that holds it. */
  lemma RegistryKindsMatch(countryCode: string, taxType: TaxType)
    ensures forall o :: o in GetTaxOptions(countryCode, taxType) ==> o.taxType == taxType
  {
    GetTaxConfigCases(countryCode);
  }

  function CountDefaults(options: seq<TaxOption>): nat
  {
    if |options| == 0 then 0 else (if options[0].isDefault then 1 else 0) + CountDefaults(options[1..])
  }

  /** Each list of each supported country has exactly one default, so
      `getDefaultTaxOption` finds one for every supported country and kind,
      and it finds nothing for an unsupported one. */
  lemma RegistryOneDefault(countryCode: string, taxType: TaxType)
    ensures GetTaxConfig(countryCode).Some? ==> CountDefaults(GetTaxOptions(countryCode, taxType)) == 1
    ensures GetDefaultTaxOption(countryCode, taxType).Some? <==> GetTaxConfig(countryCode).Some?
    ensures GetDefaultTaxOption(countryCode, taxType).Some? ==>
      GetDefaultTaxOption(countryCode, taxType).value.isDefault &&
      GetDefaultTaxOption(countryCode, taxType).value.taxType == taxType
  {
    GetTaxConfigCases(countryCode);
    RegistryKindsMatch(countryCode, taxType);
    var options := GetTaxOptions(countryCode, taxType);
    if GetTaxConfig(countryCode).Some? {
      assert options[0].isDefault;
    }
  }

  /** No list of a supported country is empty, so `getTaxOptions` returns
      `[]` exactly for unknown countries. */
  lemma GetTaxOptionsEmptyIffUnknown(countryCode: string, taxType: TaxType)
    ensures GetTaxOptions(countryCode, taxType) == [] <==> GetTaxConfig(countryCode).None?
  {
    GetTaxConfigCases(countryCode);
  }

  /** Every option sets exactly one of `rate` and `brackets`. */
  lemma RegistryOneMechanism()
    ensures forall o :: o in RegistryOptions() ==> (o.rate.Some? <==> o.brackets.None?)
  {
    RegistryOptionsValue();
  }

  predicate BracketsAscendingIn(options: seq<TaxOption>)
  {
    forall o :: o in options && o.brackets.Some? ==> StrictlyAscending(o.brackets.value)
  }

  /** Every bracket list of the registry is strictly ascending by threshold. */
  lemma RegistryBracketsAscending()
    ensures BracketsAscendingIn(RegistryOptions())
  {
    RegistryOptionsValue();
    NlBracketsAscending();
    UsBracketsAscending();
    GbBracketsAscending();
  }

  lemma NlBracketsAscending()
    ensures BracketsAscendingIn(AllOptions(NlTaxConfig))
  {
    assert StrictlyAscending(NlTaxConfig.incomeTaxes[0].brackets.value);
  }

  lemma UsBracketsAscending()
    ensures BracketsAscendingIn(AllOptions(UsTaxConfig))
  {
    assert StrictlyAscending(UsOrdinaryBrackets);
    assert StrictlyAscending(UsTaxConfig.capitalGainsTaxes[0].brackets.value);
  }

  lemma GbBracketsAscending()
    ensures BracketsAscendingIn(AllOptions(GbTaxConfig))
  {
    assert StrictlyAscending(GbTaxConfig.incomeTaxes[0].brackets.value);
    assert StrictlyAscending(GbTaxConfig.incomeTaxes[1].brackets.value);
    assert BracketsAscendingIn(GbTaxConfig.incomeTaxes);
  }

  /** Within one country, option ids are unique. */
  lemma CountryIdsUnique(countryCode: string)
    ensures forall i, j :: 0 <= i < j < |CountryOptions(countryCode)| ==>
      CountryOptions(countryCode)[i].id != CountryOptions(countryCode)[j].id
  {
    GetTaxConfigCases(countryCode);
  }

  /** Option ids are unique across all countries. */
  lemma RegistryIdsUnique()
    ensures forall i, j :: 0 <= i < j < |RegistryOptions()| ==> RegistryOptions()[i].id != RegistryOptions()[j].id
  {
    RegistryOptionsValue();
  }
}
