/** The web form and the stored profile: `toWire` and `fromWire`, over exact
    decimals. */
module WebProfile {
  import opened Wrappers
  import opened Text
  import opened Decimals
  import opened ProfileWire

  // ---------------------------------------------------------- countries and stages

  datatype Country = Country(code: string, currency: string)

  /** COUNTRY_TO_CODE. */
  function CountryOf(name: string): Option<Country> {
    if name == "Nigeria" then Some(Country("NG", "NGN"))
    else if name == "Ghana" then Some(Country("GH", "GHS"))
    else if name == "Kenya" then Some(Country("KE", "KES"))
    else if name == "South Africa" then Some(Country("ZA", "ZAR"))
    else if name == "United Kingdom" then Some(Country("GB", "GBP"))
    else if name == "United States" then Some(Country("US", "USD"))
    else if name == "Canada" then Some(Country("CA", "CAD"))
    else if name == "India" then Some(Country("IN", "INR"))
    else if name == "Singapore" then Some(Country("SG", "SGD"))
    else if name == "Germany" then Some(Country("DE", "EUR"))
    else if name == "Netherlands" then Some(Country("NL", "EUR"))
    else if name == "United Arab Emirates" then Some(Country("AE", "AED"))
    else None
  }

  /** CODE_TO_COUNTRY. */
  function CountryName(code: string): Option<string> {
    if code == "NG" then Some("Nigeria")
    else if code == "GH" then Some("Ghana")
    else if code == "KE" then Some("Kenya")
    else if code == "ZA" then Some("South Africa")
    else if code == "GB" then Some("United Kingdom")
    else if code == "US" then Some("United States")
    else if code == "CA" then Some("Canada")
    else if code == "IN" then Some("India")
    else if code == "SG" then Some("Singapore")
    else if code == "DE" then Some("Germany")
    else if code == "NL" then Some("Netherlands")
    else if code == "AE" then Some("United Arab Emirates")
    else None
  }

  /** STAGE_TO_WIRE. */
  function StageWire(name: string): Option<string> {
    if name == "Idea" then Some("idea")
    else if name == "Pre-seed" then Some("pre_seed")
    else if name == "Seed" then Some("seed")
    else if name == "Series A" then Some("series_a")
    else if name == "Series B+" then Some("series_b_plus")
    else if name == "Growth" then Some("growth")
    else None
  }

  /** WIRE_TO_STAGE. */
  function StageLabel(wire: string): Option<string> {
    if wire == "idea" then Some("Idea")
    else if wire == "pre_seed" then Some("Pre-seed")
    else if wire == "seed" then Some("Seed")
    else if wire == "series_a" then Some("Series A")
    else if wire == "series_b_plus" then Some("Series B+")
    else if wire == "growth" then Some("Growth")
    else None
  }

  lemma CountryReadsBack(name: string)
    requires CountryOf(name).Some?
    ensures CountryName(CountryOf(name).value.code) == Some(name)
  {
  }

  lemma CodeReadsBack(code: string)
    requires CountryName(code).Some?
    ensures var name := CountryName(code).value;
            CountryOf(name).Some? && CountryOf(name).value.code == code
  {
  }

  lemma StagesInvert(name: string, wire: string)
    ensures StageWire(name).Some? ==> StageLabel(StageWire(name).value) == Some(name)
    ensures StageLabel(wire).Some? ==> StageWire(StageLabel(wire).value) == Some(wire)
  {
  }

  lemma BlankIsUnknown()
    ensures CountryOf("").None? && CountryName("").None? && StageWire("").None? && StageLabel("").None?
  {
  }

  // ------------------------------------------------------------- form and profile

  datatype FormField =
    | Company | Sector | Location | Year | Stage | Description | BusinessModel | Website | Revenue | Costs
    | CostOfRevenue | Cash | Revenue12m | Revenue3mAgo | Costs3mAgo | MarketingSpend | TotalRaised | RaiseTarget
    | FounderSalary | CapitalMix | Customers | Mau | Arpu | Churn | Cac | Pilots | LargestCustomerShare
    | TeamSize | Founders | FoundersFullTime | MarketSize | Competition | GrowthConstraint | UseOfFunds
    | DeliveryCostTrend | CapTable | FounderExperience | KeyPerson | HiringGaps | IpOwned
    | ContractsTransferable | OperationsDocumented | SystemsInCompanyName | SupplierDependencies
    | ChannelDependency | RecurringRevenue | TypicalContractMonths | MaterialContracts | LegalName
    | RegistrationNumber | Registrar | IncorporationYear | Licences | TradedBeforeIncorporation | TaxFiling
    | FxExposure | LocalContent

  /** What the founder typed, field by field; an untouched field is "". */
  type Form = FormField -> string

  /** How each stored field is made and from which answer. */
  function Row(k: WireKey): (Kind, FormField) {
    match k
    case DescriptionKey => (TextKind, Description)
    case BusinessModelKey => (TextKind, BusinessModel)
    case WebsiteKey => (TextKind, Website)
    case MarketSizeNoteKey => (TextKind, MarketSize)
    case CompetitionNoteKey => (TextKind, Competition)
    case GrowthConstraintKey => (TextKind, GrowthConstraint)
    case UseOfFundsKey => (TextKind, UseOfFunds)
    case DeliveryCostTrendKey => (TextKind, DeliveryCostTrend)
    case FounderExperienceKey => (TextKind, FounderExperience)
    case CapTableSummaryKey => (TextKind, CapTable)
    case KeyPersonDependencyKey => (TextKind, KeyPerson)
    case HiringGapsKey => (TextKind, HiringGaps)
    case SupplierDependenciesKey => (TextKind, SupplierDependencies)
    case ChannelDependencyKey => (TextKind, ChannelDependency)
    case MaterialContractsNoteKey => (TextKind, MaterialContracts)
    case LegalNameKey => (TextKind, LegalName)
    case RegistrationNumberKey => (TextKind, RegistrationNumber)
    case RegistrarKey => (TextKind, Registrar)
    case RegulatoryLicencesKey => (TextKind, Licences)
    case CapitalMixNoteKey => (TextKind, CapitalMix)
    case TaxFilingStatusKey => (TextKind, TaxFiling)
    case FxExposureNoteKey => (TextKind, FxExposure)
    case LocalContentOrOwnershipNoteKey => (TextKind, LocalContent)
    case FoundedYearKey => (WholeKind, Year)
    case IncorporationYearKey => (WholeKind, IncorporationYear)
    case FounderCountKey => (WholeKind, Founders)
    case FoundersFullTimeKey => (WholeKind, FoundersFullTime)
    case TeamSizeKey => (WholeKind, TeamSize)
    case ActiveCustomersKey => (WholeKind, Customers)
    case MonthlyActiveUsersKey => (WholeKind, Mau)
    case PilotOrLouCountKey => (WholeKind, Pilots)
    case TypicalContractMonthsKey => (WholeKind, TypicalContractMonths)
    case MonthlyChurnPercentKey => (NumberKind, Churn)
    case LargestCustomerRevenueSharePercentKey => (NumberKind, LargestCustomerShare)
    case RecurringRevenuePercentKey => (NumberKind, RecurringRevenue)
    case IpOwnedKey => (FlagKind, IpOwned)
    case ContractsTransferableKey => (FlagKind, ContractsTransferable)
    case OperationsDocumentedKey => (FlagKind, OperationsDocumented)
    case SystemsInCompanyNameKey => (FlagKind, SystemsInCompanyName)
    case TradingBeforeIncorporationKey => (FlagKind, TradedBeforeIncorporation)
    case MonthlyRevenueMinorKey => (MoneyKind, Revenue)
    case MonthlyCostsMinorKey => (MoneyKind, Costs)
    case CostOfRevenueMinorKey => (MoneyKind, CostOfRevenue)
    case CashOnHandMinorKey => (MoneyKind, Cash)
    case Last12mRevenueMinorKey => (MoneyKind, Revenue12m)
    case MonthlyRevenue3mAgoMinorKey => (MoneyKind, Revenue3mAgo)
    case MonthlyCosts3mAgoMinorKey => (MoneyKind, Costs3mAgo)
    case MonthlyMarketingSpendMinorKey => (MoneyKind, MarketingSpend)
    case TotalRaisedMinorKey => (MoneyKind, TotalRaised)
    case CurrentRaiseTargetMinorKey => (MoneyKind, RaiseTarget)
    case FounderSalaryMinorKey => (MoneyKind, FounderSalary)
    case AverageRevenuePerCustomerMinorKey => (MoneyKind, Arpu)
    case CustomerAcquisitionCostMinorKey => (MoneyKind, Cac)
  }

  // ----------------------------------------------------------------------- toWire

  function Encoded(kind: Kind, typed: string, inCountry: bool): Option<Value> {
    match kind
    case TextKind => if Trim(typed) == "" then None else Some(Text(Trim(typed)))
    case WholeKind => if N(typed).None? then None else Some(Num(Round(N(typed).value)))
    case NumberKind => if N(typed).None? then None else Some(Num(N(typed).value))
    case FlagKind => if typed == "" then None else Some(Flag(typed == "Yes"))
    case MoneyKind => if !inCountry || N(typed).None? then None else Some(Num(Round(Scale(N(typed).value, 2))))
  }

  function Entry(form: Form, k: WireKey): Option<Value> {
    Encoded(Row(k).0, form(Row(k).1), CountryOf(form(Location)).Some?)
  }

  function EntriesOf(form: Form): Entries {
    k => Entry(form, k)
  }

  function Wired(form: Form): Profile {
    var country := CountryOf(form(Location));
    Profile(NonEmpty(Trim(form(Company))), NonEmpty(Trim(form(Sector))), StageWire(form(Stage)),
            if country.Some? then Some(country.value.code) else None,
            if country.Some? then Some(country.value.currency) else None,
            Collected(EntriesOf(form)))
  }

  const TEXT_ROWS: seq<(WireKey, FormField)> := [
    (DescriptionKey, Description), (BusinessModelKey, BusinessModel), (WebsiteKey, Website),
    (MarketSizeNoteKey, MarketSize), (CompetitionNoteKey, Competition), (GrowthConstraintKey, GrowthConstraint),
    (UseOfFundsKey, UseOfFunds), (DeliveryCostTrendKey, DeliveryCostTrend),
    (FounderExperienceKey, FounderExperience), (CapTableSummaryKey, CapTable),
    (KeyPersonDependencyKey, KeyPerson), (HiringGapsKey, HiringGaps),
    (SupplierDependenciesKey, SupplierDependencies), (ChannelDependencyKey, ChannelDependency),
    (MaterialContractsNoteKey, MaterialContracts), (LegalNameKey, LegalName),
    (RegistrationNumberKey, RegistrationNumber), (RegistrarKey, Registrar), (RegulatoryLicencesKey, Licences),
    (CapitalMixNoteKey, CapitalMix), (TaxFilingStatusKey, TaxFiling), (FxExposureNoteKey, FxExposure),
    (LocalContentOrOwnershipNoteKey, LocalContent)
  ]

  const COUNT_ROWS: seq<(WireKey, FormField)> := [
    (FounderCountKey, Founders), (FoundersFullTimeKey, FoundersFullTime), (TeamSizeKey, TeamSize),
    (ActiveCustomersKey, Customers), (MonthlyActiveUsersKey, Mau), (PilotOrLouCountKey, Pilots),
    (TypicalContractMonthsKey, TypicalContractMonths)
  ]

  const FLAG_ROWS: seq<(WireKey, FormField)> := [
    (IpOwnedKey, IpOwned), (ContractsTransferableKey, ContractsTransferable),
    (OperationsDocumentedKey, OperationsDocumented), (SystemsInCompanyNameKey, SystemsInCompanyName),
    (TradingBeforeIncorporationKey, TradedBeforeIncorporation)
  ]

  const YEAR_ROWS: seq<(WireKey, FormField)> := [
    (FoundedYearKey, Year), (IncorporationYearKey, IncorporationYear)
  ]

  const PERCENT_ROWS: seq<(WireKey, FormField)> := [
    (MonthlyChurnPercentKey, Churn), (LargestCustomerRevenueSharePercentKey, LargestCustomerShare),
    (RecurringRevenuePercentKey, RecurringRevenue)
  ]

  const MONEY_ROWS: seq<(WireKey, FormField)> := [
    (MonthlyRevenueMinorKey, Revenue), (MonthlyCostsMinorKey, Costs), (CostOfRevenueMinorKey, CostOfRevenue),
    (CashOnHandMinorKey, Cash), (Last12mRevenueMinorKey, Revenue12m),
    (MonthlyRevenue3mAgoMinorKey, Revenue3mAgo), (MonthlyCosts3mAgoMinorKey, Costs3mAgo),
    (MonthlyMarketingSpendMinorKey, MarketingSpend), (TotalRaisedMinorKey, TotalRaised),
    (CurrentRaiseTargetMinorKey, RaiseTarget), (FounderSalaryMinorKey, FounderSalary),
    (AverageRevenuePerCustomerMinorKey, Arpu), (CustomerAcquisitionCostMinorKey, Cac)
  ]

  lemma TextRowAgrees(i: nat)
    requires i < |TEXT_ROWS|
    ensures Row(TEXT_ROWS[i].0) == (TextKind, TEXT_ROWS[i].1)
  {
  }

  lemma CountRowAgrees(i: nat)
    requires i < |COUNT_ROWS|
    ensures Row(COUNT_ROWS[i].0) == (WholeKind, COUNT_ROWS[i].1)
  {
  }

  lemma FlagRowAgrees(i: nat)
    requires i < |FLAG_ROWS|
    ensures Row(FLAG_ROWS[i].0) == (FlagKind, FLAG_ROWS[i].1)
  {
  }

  lemma EarlyMoneyRowAgrees(i: nat)
    requires i < 7
    ensures Row(MONEY_ROWS[i].0) == (MoneyKind, MONEY_ROWS[i].1)
  {
  }

  lemma LateMoneyRowAgrees(i: nat)
    requires 7 <= i < |MONEY_ROWS|
    ensures Row(MONEY_ROWS[i].0) == (MoneyKind, MONEY_ROWS[i].1)
  {
  }

  lemma MoneyRowAgrees(i: nat)
    requires i < |MONEY_ROWS|
    ensures Row(MONEY_ROWS[i].0) == (MoneyKind, MONEY_ROWS[i].1)
  {
    hide Row;
    if i < 7 {
      EarlyMoneyRowAgrees(i);
    } else {
      LateMoneyRowAgrees(i);
    }
  }

  ghost function NumberKeys(): set<WireKey> {
    Keys(YEAR_ROWS) + Keys(COUNT_ROWS) + Keys(PERCENT_ROWS)
  }

  lemma WrittenAsText(k: WireKey)
    requires Row(k).0 == TextKind
    ensures (k, Row(k).1) in TEXT_ROWS
  {
  }

  lemma WrittenAsWhole(k: WireKey)
    requires Row(k).0 == WholeKind
    ensures (k, Row(k).1) in YEAR_ROWS || (k, Row(k).1) in COUNT_ROWS
  {
  }

  lemma WrittenAsNumber(k: WireKey)
    requires Row(k).0 == NumberKind
    ensures (k, Row(k).1) in PERCENT_ROWS
  {
  }

  lemma WrittenAsFlag(k: WireKey)
    requires Row(k).0 == FlagKind
    ensures (k, Row(k).1) in FLAG_ROWS
  {
  }

  lemma WrittenAsMoney(k: WireKey)
    requires Row(k).0 == MoneyKind
    ensures (k, Row(k).1) in MONEY_ROWS
  {
  }

  /** Every key is written by one of the steps. */
  lemma EveryKeyIsWritten(k: WireKey)
    ensures k in Keys(TEXT_ROWS) + NumberKeys() + Keys(FLAG_ROWS) + Keys(MONEY_ROWS)
  {
    hide Row, Keys, TEXT_ROWS, YEAR_ROWS, COUNT_ROWS, PERCENT_ROWS, FLAG_ROWS, MONEY_ROWS;
    var row := (k, Row(k).1);
    match Row(k).0 {
      case TextKind => WrittenAsText(k);
      case WholeKind => WrittenAsWhole(k);
      case NumberKind => WrittenAsNumber(k);
      case FlagKind => WrittenAsFlag(k);
      case MoneyKind => WrittenAsMoney(k);
    }
    forall rows | rows in [TEXT_ROWS, YEAR_ROWS, COUNT_ROWS, PERCENT_ROWS, FLAG_ROWS, MONEY_ROWS] && row in rows
      ensures k in Keys(rows)
    {
      KeyOfRow(rows, row);
    }
  }

  method AddTexts(form: Form) returns (fields: map<WireKey, Value>)
    ensures Filled(fields, EntriesOf(form), Keys(TEXT_ROWS))
  {
    hide Row, Trim, Filled, Keys;
    fields := map[];
    assert Filled(fields, EntriesOf(form), Keys(TEXT_ROWS[..0])) by { NothingFilled(EntriesOf(form), TEXT_ROWS); }
    for i := 0 to |TEXT_ROWS|
      invariant Filled(fields, EntriesOf(form), Keys(TEXT_ROWS[..i]))
    {
      var (k, f) := TEXT_ROWS[i];
      TextRowAgrees(i);
      PutFills(fields, EntriesOf(form), Keys(TEXT_ROWS[..i]), k);
      KeysNext(TEXT_ROWS, i);
      if Trim(form(f)) != "" {
        fields := fields[k := Text(Trim(form(f)))];
      }
    }
    assert TEXT_ROWS[..|TEXT_ROWS|] == TEXT_ROWS;
  }

  method PutWhole(before: map<WireKey, Value>, form: Form, k: WireKey, f: FormField, ghost already: set<WireKey>)
    returns (fields: map<WireKey, Value>)
    requires Filled(before, EntriesOf(form), already) && Row(k) == (WholeKind, f)
    ensures Filled(fields, EntriesOf(form), already + {k})
  {
    hide N, Filled, Row;
    fields := before;
    PutFills(fields, EntriesOf(form), already, k);
    var parsed := N(form(f));
    if parsed.Some? {
      fields := fields[k := Num(Round(parsed.value))];
    }
  }

  method PutNumber(before: map<WireKey, Value>, form: Form, k: WireKey, f: FormField, ghost already: set<WireKey>)
    returns (fields: map<WireKey, Value>)
    requires Filled(before, EntriesOf(form), already) && Row(k) == (NumberKind, f)
    ensures Filled(fields, EntriesOf(form), already + {k})
  {
    hide N, Filled, Row;
    fields := before;
    PutFills(fields, EntriesOf(form), already, k);
    var parsed := N(form(f));
    if parsed.Some? {
      fields := fields[k := Num(parsed.value)];
    }
  }

  lemma PercentKeys()
    ensures Keys(PERCENT_ROWS) ==
            {MonthlyChurnPercentKey} + {LargestCustomerRevenueSharePercentKey} + {RecurringRevenuePercentKey}
  {
    assert PERCENT_ROWS[0] in PERCENT_ROWS && PERCENT_ROWS[1] in PERCENT_ROWS && PERCENT_ROWS[2] in PERCENT_ROWS;
  }

  method AddPercents(before: map<WireKey, Value>, form: Form, ghost already: set<WireKey>)
    returns (fields: map<WireKey, Value>)
    requires Filled(before, EntriesOf(form), already)
    ensures Filled(fields, EntriesOf(form), already + Keys(PERCENT_ROWS))
  {
    hide Filled, Keys;
    ghost var done := already;
    fields := PutNumber(before, form, MonthlyChurnPercentKey, Churn, done);
    done := done + {MonthlyChurnPercentKey};
    fields := PutNumber(fields, form, LargestCustomerRevenueSharePercentKey, LargestCustomerShare, done);
    done := done + {LargestCustomerRevenueSharePercentKey};
    fields := PutNumber(fields, form, RecurringRevenuePercentKey, RecurringRevenue, done);
    done := done + {RecurringRevenuePercentKey};
    PercentKeys();
    assert done == already + Keys(PERCENT_ROWS);
  }

  lemma YearKeys()
    ensures Keys(YEAR_ROWS) == {FoundedYearKey} + {IncorporationYearKey}
  {
    assert YEAR_ROWS[0] in YEAR_ROWS && YEAR_ROWS[1] in YEAR_ROWS;
  }

  /** The years, the counts and the percentages. */
  method AddNumbers(before: map<WireKey, Value>, form: Form, ghost already: set<WireKey>)
    returns (fields: map<WireKey, Value>)
    requires Filled(before, EntriesOf(form), already)
    ensures Filled(fields, EntriesOf(form), already + NumberKeys())
  {
    hide Filled, Keys;
    fields := PutWhole(before, form, FoundedYearKey, Year, already);
    fields := PutWhole(fields, form, IncorporationYearKey, IncorporationYear, already + {FoundedYearKey});
    YearKeys();
    ghost var done := already + {FoundedYearKey} + {IncorporationYearKey};
    assert done == already + Keys(YEAR_ROWS);
    assert Keys(COUNT_ROWS[..0]) == {} by { NoKeys(COUNT_ROWS); }
    assert done + {} == done;
    for i := 0 to |COUNT_ROWS|
      invariant Filled(fields, EntriesOf(form), done + Keys(COUNT_ROWS[..i]))
    {
      CountRowAgrees(i);
      fields := PutWhole(fields, form, COUNT_ROWS[i].0, COUNT_ROWS[i].1, done + Keys(COUNT_ROWS[..i]));
      KeysNext(COUNT_ROWS, i);
      assert done + Keys(COUNT_ROWS[..i + 1]) == done + Keys(COUNT_ROWS[..i]) + {COUNT_ROWS[i].0};
    }
    assert COUNT_ROWS[..|COUNT_ROWS|] == COUNT_ROWS;
    fields := AddPercents(fields, form, done + Keys(COUNT_ROWS));
    assert done + Keys(COUNT_ROWS) + Keys(PERCENT_ROWS) == already + NumberKeys();
  }

  method AddFlags(before: map<WireKey, Value>, form: Form, ghost already: set<WireKey>)
    returns (fields: map<WireKey, Value>)
    requires Filled(before, EntriesOf(form), already)
    ensures Filled(fields, EntriesOf(form), already + Keys(FLAG_ROWS))
  {
    hide Row, Filled, Keys;
    fields := before;
    assert Keys(FLAG_ROWS[..0]) == {} by { NoKeys(FLAG_ROWS); }
    assert already + {} == already;
    for i := 0 to |FLAG_ROWS|
      invariant Filled(fields, EntriesOf(form), already + Keys(FLAG_ROWS[..i]))
    {
      var (k, f) := FLAG_ROWS[i];
      FlagRowAgrees(i);
      PutFills(fields, EntriesOf(form), already + Keys(FLAG_ROWS[..i]), k);
      KeysNext(FLAG_ROWS, i);
      assert already + Keys(FLAG_ROWS[..i + 1]) == already + Keys(FLAG_ROWS[..i]) + {k};
      if form(f) != "" {
        fields := fields[k := Flag(form(f) == "Yes")];
      }
    }
    assert FLAG_ROWS[..|FLAG_ROWS|] == FLAG_ROWS;
  }

  /** The local function `money`: major units typed, minor units stored. `i` counts
      the calls so far. */
  method Money(before: map<WireKey, Value>, form: Form, k: WireKey, f: FormField, ghost i: nat,
               ghost already: set<WireKey>)
    returns (fields: map<WireKey, Value>)
    requires CountryOf(form(Location)).Some?
    requires i < |MONEY_ROWS| && MONEY_ROWS[i] == (k, f)
    requires Filled(before, EntriesOf(form), already + Keys(MONEY_ROWS[..i]))
    ensures Filled(fields, EntriesOf(form), already + Keys(MONEY_ROWS[..i + 1]))
  {
    hide N, Filled, Row, Keys, CountryOf;
    fields := before;
    ghost var done := already + Keys(MONEY_ROWS[..i]);
    MoneyRowAgrees(i);
    PutFills(fields, EntriesOf(form), done, k);
    KeysNext(MONEY_ROWS, i);
    assert already + Keys(MONEY_ROWS[..i + 1]) == done + {k};
    var parsed := N(form(f));
    if parsed.Some? {
      fields := fields[k := Num(Round(Scale(parsed.value, 2)))];
    }
  }

  lemma MoneyRows()
    ensures |MONEY_ROWS| == 13
    ensures MONEY_ROWS[0] == (MonthlyRevenueMinorKey, Revenue)
    ensures MONEY_ROWS[1] == (MonthlyCostsMinorKey, Costs)
    ensures MONEY_ROWS[2] == (CostOfRevenueMinorKey, CostOfRevenue)
    ensures MONEY_ROWS[3] == (CashOnHandMinorKey, Cash)
    ensures MONEY_ROWS[4] == (Last12mRevenueMinorKey, Revenue12m)
    ensures MONEY_ROWS[5] == (MonthlyRevenue3mAgoMinorKey, Revenue3mAgo)
    ensures MONEY_ROWS[6] == (MonthlyCosts3mAgoMinorKey, Costs3mAgo)
    ensures MONEY_ROWS[7] == (MonthlyMarketingSpendMinorKey, MarketingSpend)
    ensures MONEY_ROWS[8] == (TotalRaisedMinorKey, TotalRaised)
    ensures MONEY_ROWS[9] == (CurrentRaiseTargetMinorKey, RaiseTarget)
    ensures MONEY_ROWS[10] == (FounderSalaryMinorKey, FounderSalary)
    ensures MONEY_ROWS[11] == (AverageRevenuePerCustomerMinorKey, Arpu)
    ensures MONEY_ROWS[12] == (CustomerAcquisitionCostMinorKey, Cac)
  {
  }

  method AddMoney(before: map<WireKey, Value>, form: Form, ghost already: set<WireKey>)
    returns (fields: map<WireKey, Value>)
    requires CountryOf(form(Location)).Some? && Filled(before, EntriesOf(form), already)
    ensures Filled(fields, EntriesOf(form), already + Keys(MONEY_ROWS))
  {
    hide *;
    MoneyRows();
    NoKeys(MONEY_ROWS);
    assert already + {} == already;
    fields := before;
    fields := Money(fields, form, MonthlyRevenueMinorKey, Revenue, 0, already);
    fields := Money(fields, form, MonthlyCostsMinorKey, Costs, 1, already);
    fields := Money(fields, form, CostOfRevenueMinorKey, CostOfRevenue, 2, already);
    fields := Money(fields, form, CashOnHandMinorKey, Cash, 3, already);
    fields := Money(fields, form, Last12mRevenueMinorKey, Revenue12m, 4, already);
    fields := Money(fields, form, MonthlyRevenue3mAgoMinorKey, Revenue3mAgo, 5, already);
    fields := Money(fields, form, MonthlyCosts3mAgoMinorKey, Costs3mAgo, 6, already);
    fields := Money(fields, form, MonthlyMarketingSpendMinorKey, MarketingSpend, 7, already);
    fields := Money(fields, form, TotalRaisedMinorKey, TotalRaised, 8, already);
    fields := Money(fields, form, CurrentRaiseTargetMinorKey, RaiseTarget, 9, already);
    fields := Money(fields, form, FounderSalaryMinorKey, FounderSalary, 10, already);
    fields := Money(fields, form, AverageRevenuePerCustomerMinorKey, Arpu, 11, already);
    fields := Money(fields, form, CustomerAcquisitionCostMinorKey, Cac, 12, already);
    assert MONEY_ROWS[..|MONEY_ROWS|] == MONEY_ROWS;
  }

  lemma NoCountryNoMoney(fields: map<WireKey, Value>, form: Form, done: set<WireKey>)
    requires CountryOf(form(Location)).None? && Filled(fields, EntriesOf(form), done)
    ensures Filled(fields, EntriesOf(form), done + Keys(MONEY_ROWS))
  {
    hide Row, MONEY_ROWS, N, CountryOf;
    forall k <- Keys(MONEY_ROWS) ensures Entry(form, k).None? {
      var i :| 0 <= i < |MONEY_ROWS| && MONEY_ROWS[i].0 == k;
      MoneyRowAgrees(i);
    }
    hide Entry;
  }

  method ToWire(form: Form) returns (wire: Profile)
    ensures wire == Wired(form)
  {
    hide Trim, CountryOf, StageWire, Filled, Keys, NumberKeys, Entry;
    var country := CountryOf(form(Location));
    wire := Profile(None, None, None, None, None, map[]);
    if Trim(form(Company)) != "" {
      wire := wire.(name := Some(Trim(form(Company))));
    }
    if Trim(form(Sector)) != "" {
      wire := wire.(sector := Some(Trim(form(Sector))));
    }
    assert StageWire("").None? by { BlankIsUnknown(); }
    if form(Stage) != "" && StageWire(form(Stage)).Some? {
      wire := wire.(stage := StageWire(form(Stage)));
    }
    if country.Some? {
      wire := wire.(country := Some(country.value.code), currency := Some(country.value.currency));
    }
    var fields := AddTexts(form);
    fields := AddNumbers(fields, form, Keys(TEXT_ROWS));
    fields := AddFlags(fields, form, Keys(TEXT_ROWS) + NumberKeys());
    ghost var done := Keys(TEXT_ROWS) + NumberKeys() + Keys(FLAG_ROWS);
    if country.Some? {
      fields := AddMoney(fields, form, done);
    } else {
      NoCountryNoMoney(fields, form, done);
    }
    forall k: WireKey ensures k in done + Keys(MONEY_ROWS) {
      EveryKeyIsWritten(k);
    }
    FilledIsCollected(fields, EntriesOf(form), done + Keys(MONEY_ROWS));
    wire := wire.(fields := fields);
  }

  // --------------------------------------------------------------------- fromWire

  function TextOf(v: Option<Value>): string {
    match v
    case None => ""
    case Some(Text(s)) => s
    case Some(Num(d)) => Print(d)
    case Some(Flag(b)) => if b then "true" else "false"
  }

  function NumOf(v: Option<Value>): string {
    if v.Some? && v.value.Num? then Print(v.value.num) else ""
  }

  function MajorOf(v: Option<Value>): string {
    if v.Some? && v.value.Num? then Print(Scale(v.value.num, -2)) else ""
  }

  function YesNoOf(v: Option<Value>): string {
    if v == Some(Flag(true)) then "Yes" else if v == Some(Flag(false)) then "No" else ""
  }

  function Shown(kind: Kind, v: Option<Value>): string {
    match kind
    case TextKind => TextOf(v)
    case WholeKind => NumOf(v)
    case NumberKind => NumOf(v)
    case FlagKind => YesNoOf(v)
    case MoneyKind => MajorOf(v)
  }

  /** Which stored field each answer shows, and how; the first four come from the
      profile's own columns. */
  function ShownRow(f: FormField): Option<(Kind, WireKey)> {
    match f
    case Company => None
    case Sector => None
    case Location => None
    case Stage => None
    case Year => Some((WholeKind, FoundedYearKey))
    case Description => Some((TextKind, DescriptionKey))
    case BusinessModel => Some((TextKind, BusinessModelKey))
    case Website => Some((TextKind, WebsiteKey))
    case Revenue => Some((MoneyKind, MonthlyRevenueMinorKey))
    case Costs => Some((MoneyKind, MonthlyCostsMinorKey))
    case CostOfRevenue => Some((MoneyKind, CostOfRevenueMinorKey))
    case Cash => Some((MoneyKind, CashOnHandMinorKey))
    case Revenue12m => Some((MoneyKind, Last12mRevenueMinorKey))
    case Revenue3mAgo => Some((MoneyKind, MonthlyRevenue3mAgoMinorKey))
    case Costs3mAgo => Some((MoneyKind, MonthlyCosts3mAgoMinorKey))
    case MarketingSpend => Some((MoneyKind, MonthlyMarketingSpendMinorKey))
    case TotalRaised => Some((MoneyKind, TotalRaisedMinorKey))
    case RaiseTarget => Some((MoneyKind, CurrentRaiseTargetMinorKey))
    case FounderSalary => Some((MoneyKind, FounderSalaryMinorKey))
    case CapitalMix => Some((TextKind, CapitalMixNoteKey))
    case Customers => Some((WholeKind, ActiveCustomersKey))
    case Mau => Some((WholeKind, MonthlyActiveUsersKey))
    case Arpu => Some((MoneyKind, AverageRevenuePerCustomerMinorKey))
    case Churn => Some((NumberKind, MonthlyChurnPercentKey))
    case Cac => Some((MoneyKind, CustomerAcquisitionCostMinorKey))
    case Pilots => Some((WholeKind, PilotOrLouCountKey))
    case LargestCustomerShare => Some((NumberKind, LargestCustomerRevenueSharePercentKey))
    case TeamSize => Some((WholeKind, TeamSizeKey))
    case Founders => Some((WholeKind, FounderCountKey))
    case FoundersFullTime => Some((WholeKind, FoundersFullTimeKey))
    case MarketSize => Some((TextKind, MarketSizeNoteKey))
    case Competition => Some((TextKind, CompetitionNoteKey))
    case GrowthConstraint => Some((TextKind, GrowthConstraintKey))
    case UseOfFunds => Some((TextKind, UseOfFundsKey))
    case DeliveryCostTrend => Some((TextKind, DeliveryCostTrendKey))
    case CapTable => Some((TextKind, CapTableSummaryKey))
    case FounderExperience => Some((TextKind, FounderExperienceKey))
    case KeyPerson => Some((TextKind, KeyPersonDependencyKey))
    case HiringGaps => Some((TextKind, HiringGapsKey))
    case IpOwned => Some((FlagKind, IpOwnedKey))
    case ContractsTransferable => Some((FlagKind, ContractsTransferableKey))
    case OperationsDocumented => Some((FlagKind, OperationsDocumentedKey))
    case SystemsInCompanyName => Some((FlagKind, SystemsInCompanyNameKey))
    case SupplierDependencies => Some((TextKind, SupplierDependenciesKey))
    case ChannelDependency => Some((TextKind, ChannelDependencyKey))
    case RecurringRevenue => Some((NumberKind, RecurringRevenuePercentKey))
    case TypicalContractMonths => Some((WholeKind, TypicalContractMonthsKey))
    case MaterialContracts => Some((TextKind, MaterialContractsNoteKey))
    case LegalName => Some((TextKind, LegalNameKey))
    case RegistrationNumber => Some((TextKind, RegistrationNumberKey))
    case Registrar => Some((TextKind, RegistrarKey))
    case IncorporationYear => Some((WholeKind, IncorporationYearKey))
    case Licences => Some((TextKind, RegulatoryLicencesKey))
    case TradedBeforeIncorporation => Some((FlagKind, TradingBeforeIncorporationKey))
    case TaxFiling => Some((TextKind, TaxFilingStatusKey))
    case FxExposure => Some((TextKind, FxExposureNoteKey))
    case LocalContent => Some((TextKind, LocalContentOrOwnershipNoteKey))
  }

  function Answer(p: Profile, f: FormField): string {
    match ShownRow(f)
    case Some((kind, k)) => Shown(kind, Stored(p, k))
    case None =>
      if f == Company then OrEmpty(p.name)
      else if f == Sector then OrEmpty(p.sector)
      else if f == Location then OrEmpty(CountryName(OrEmpty(p.country)))
      else OrEmpty(StageLabel(OrEmpty(p.stage)))
  }

  function FromWire(p: Profile): Form {
    f => Answer(p, f)
  }

  // ------------------------------------------------------------------- round trips

  lemma EarlyTextRowShows(i: nat)
    requires i < 12
    ensures ShownRow(TEXT_ROWS[i].1) == Some((TextKind, TEXT_ROWS[i].0))
  {
  }

  lemma MiddleTextRowShows(i: nat)
    requires 12 <= i < 18
    ensures ShownRow(TEXT_ROWS[i].1) == Some((TextKind, TEXT_ROWS[i].0))
  {
  }

  lemma LateTextRowShows(i: nat)
    requires 18 <= i < |TEXT_ROWS|
    ensures ShownRow(TEXT_ROWS[i].1) == Some((TextKind, TEXT_ROWS[i].0))
  {
  }

  lemma TextRowShows(i: nat)
    requires i < |TEXT_ROWS|
    ensures ShownRow(TEXT_ROWS[i].1) == Some((TextKind, TEXT_ROWS[i].0))
  {
    hide ShownRow;
    if i < 12 {
      EarlyTextRowShows(i);
    } else if i < 18 {
      MiddleTextRowShows(i);
    } else {
      LateTextRowShows(i);
    }
  }

  lemma YearRowShows(i: nat)
    requires i < |YEAR_ROWS|
    ensures ShownRow(YEAR_ROWS[i].1) == Some((WholeKind, YEAR_ROWS[i].0))
  {
  }

  lemma CountRowShows(i: nat)
    requires i < |COUNT_ROWS|
    ensures ShownRow(COUNT_ROWS[i].1) == Some((WholeKind, COUNT_ROWS[i].0))
  {
  }

  lemma PercentRowShows(i: nat)
    requires i < |PERCENT_ROWS|
    ensures ShownRow(PERCENT_ROWS[i].1) == Some((NumberKind, PERCENT_ROWS[i].0))
  {
  }

  lemma FlagRowShows(i: nat)
    requires i < |FLAG_ROWS|
    ensures ShownRow(FLAG_ROWS[i].1) == Some((FlagKind, FLAG_ROWS[i].0))
  {
  }

  lemma MoneyRowShows(i: nat)
    requires i < |MONEY_ROWS|
    ensures ShownRow(MONEY_ROWS[i].1) == Some((MoneyKind, MONEY_ROWS[i].0))
  {
  }

  /** The table of `fromWire` shows each key in the answer `toWire` reads it from. */
  lemma TablesMatch(k: WireKey)
    ensures ShownRow(Row(k).1) == Some((Row(k).0, k))
  {
    hide Row, ShownRow, TEXT_ROWS, YEAR_ROWS, COUNT_ROWS, PERCENT_ROWS, FLAG_ROWS, MONEY_ROWS;
    var row := (k, Row(k).1);
    match Row(k).0 {
      case TextKind => WrittenAsText(k);
      case WholeKind => WrittenAsWhole(k);
      case NumberKind => WrittenAsNumber(k);
      case FlagKind => WrittenAsFlag(k);
      case MoneyKind => WrittenAsMoney(k);
    }
    if row in TEXT_ROWS {
      var i :| 0 <= i < |TEXT_ROWS| && TEXT_ROWS[i] == row;
      TextRowShows(i);
    }
    if row in YEAR_ROWS {
      var i :| 0 <= i < |YEAR_ROWS| && YEAR_ROWS[i] == row;
      YearRowShows(i);
    }
    if row in COUNT_ROWS {
      var i :| 0 <= i < |COUNT_ROWS| && COUNT_ROWS[i] == row;
      CountRowShows(i);
    }
    if row in PERCENT_ROWS {
      var i :| 0 <= i < |PERCENT_ROWS| && PERCENT_ROWS[i] == row;
      PercentRowShows(i);
    }
    if row in FLAG_ROWS {
      var i :| 0 <= i < |FLAG_ROWS| && FLAG_ROWS[i] == row;
      FlagRowShows(i);
    }
    if row in MONEY_ROWS {
      var i :| 0 <= i < |MONEY_ROWS| && MONEY_ROWS[i] == row;
      MoneyRowShows(i);
    }
  }

  /** What a save can have stored under a key of this kind. */
  predicate WellStored(kind: Kind, v: Option<Value>, inCountry: bool) {
    v.Some? ==>
      match kind
      case TextKind => v.value.Text? && v.value.text != "" && Trimmed(v.value.text)
      case WholeKind => v.value.Num? && IsInteger(v.value.num)
      case NumberKind => v.value.Num?
      case FlagKind => v.value.Flag?
      case MoneyKind => v.value.Num? && IsInteger(v.value.num) && inCountry
  }

  lemma EncodedIsWellStored(kind: Kind, typed: string, inCountry: bool)
    ensures WellStored(kind, Encoded(kind, typed, inCountry), inCountry)
  {
    hide N, Round;
    TrimIsTrimmed(typed, IsJsSpace);
    if N(typed).Some? {
      RoundIsInteger(N(typed).value);
      RoundIsInteger(Scale(N(typed).value, 2));
    }
  }

  /** Showing a stored value and saving it again gives it back exactly when a save
      can have stored it. */
  lemma ValueReadsBack(kind: Kind, v: Option<Value>, inCountry: bool)
    ensures Encoded(kind, Shown(kind, v), inCountry) == v <==> WellStored(kind, v, inCountry)
  {
    hide N, Print, Round;
    EncodedIsWellStored(kind, Shown(kind, v), inCountry);
    NothingReadsAsNone();
    if v.Some? {
      match v.value {
        case Text(s) =>
          if Trimmed(s) {
            TrimOfTrimmed(s, IsJsSpace);
          }
        case Num(d) =>
          NumberReadsBack(d);
          NumberReadsBack(Scale(d, -2));
          if IsInteger(d) {
            RoundOfInteger(d);
          }
        case Flag(_) =>
      }
    }
  }

  ghost predicate AllWellStored(p: Profile, inCountry: bool) {
    forall k: WireKey :: WellStored(Row(k).0, Stored(p, k), inCountry)
  }

  function CurrencyOf(name: string): Option<string> {
    if CountryOf(name).Some? then Some(CountryOf(name).value.currency) else None
  }

  /** What a save can have stored. */
  ghost predicate WellFormed(p: Profile) {
    && WellStoredText(p.name) && WellStoredText(p.sector)
    && (p.stage.Some? ==> StageLabel(p.stage.value).Some?)
    && (if p.country.Some? then
          CountryName(p.country.value).Some? && p.currency == CurrencyOf(CountryName(p.country.value).value)
        else p.currency.None?)
    && AllWellStored(p, p.country.Some?)
  }

  lemma StageReadsBack(stage: Option<string>)
    ensures StageWire(OrEmpty(StageLabel(OrEmpty(stage)))) == stage <==> (stage.Some? ==> StageLabel(stage.value).Some?)
  {
    hide StageWire, StageLabel;
    BlankIsUnknown();
    StagesInvert(OrEmpty(StageLabel(OrEmpty(stage))), OrEmpty(stage));
  }

  /** The country an answer shows: known exactly when the stored code is. */
  lemma CountryShown(country: Option<string>)
    ensures var name := OrEmpty(CountryName(OrEmpty(country)));
            && (CountryOf(name).Some? <==> country.Some? && CountryName(country.value).Some?)
            && (CountryOf(name).Some? ==> Some(CountryOf(name).value.code) == country)
  {
    hide CountryOf, CountryName;
    BlankIsUnknown();
    if CountryName(OrEmpty(country)).Some? {
      CodeReadsBack(OrEmpty(country));
    }
  }

  lemma EntryShown(p: Profile, k: WireKey)
    ensures var inCountry := CountryOf(FromWire(p)(Location)).Some?;
            Entry(FromWire(p), k) == Stored(p, k) <==> WellStored(Row(k).0, Stored(p, k), inCountry)
  {
    hide Row, ShownRow, Encoded, Shown, WellStored, CountryOf;
    TablesMatch(k);
    ValueReadsBack(Row(k).0, Stored(p, k), CountryOf(FromWire(p)(Location)).Some?);
  }

  lemma FieldsReadBack(p: Profile)
    ensures var inCountry := CountryOf(FromWire(p)(Location)).Some?;
            Wired(FromWire(p)).fields == p.fields <==> AllWellStored(p, inCountry)
  {
    hide Row, Entry, WellStored, Answer, CountryOf, StageWire, Trim, Collected;
    var inCountry := CountryOf(FromWire(p)(Location)).Some?;
    var entry := EntriesOf(FromWire(p));
    forall k: WireKey ensures entry(k) == Stored(p, k) <==> WellStored(Row(k).0, Stored(p, k), inCountry) {
      EntryShown(p, k);
    }
    CollectedIsStored(entry, p);
  }

  /** Loading a stored profile into the form and saving it changes nothing, exactly
      when the profile is one a save can have stored: for all six stages, twelve
      countries and fifty-three fields. */
  lemma LoadThenSaveKeepsProfile(p: Profile)
    ensures Wired(FromWire(p)) == p <==> WellFormed(p)
  {
    hide Row, Entry, WellStored, CountryOf, CountryName, StageWire, StageLabel, Trim, WellStoredText;
    FieldsReadBack(p);
    TextReadsBack(p.name);
    TextReadsBack(p.sector);
    StageReadsBack(p.stage);
    CountryShown(p.country);
  }

  lemma EntryIsWellStored(form: Form, k: WireKey)
    ensures WellStored(Row(k).0, Entry(form, k), CountryOf(form(Location)).Some?)
  {
    hide Row, Encoded, WellStored, CountryOf;
    EncodedIsWellStored(Row(k).0, form(Row(k).1), CountryOf(form(Location)).Some?);
  }

  /** Every save is well formed. */
  lemma SavesAreWellFormed(form: Form)
    ensures WellFormed(Wired(form))
  {
    hide Row, Entry, WellStored, CountryOf, CountryName, StageWire, StageLabel, Trim, Trimmed;
    var p := Wired(form);
    TrimmedAnswer(form(Company));
    TrimmedAnswer(form(Sector));
    StagesInvert(form(Stage), "");
    if CountryOf(form(Location)).Some? {
      CountryReadsBack(form(Location));
    }
    forall k: WireKey ensures WellStored(Row(k).0, Stored(p, k), p.country.Some?) {
      EntryIsWellStored(form, k);
      assert Stored(p, k) == Entry(form, k);
    }
  }

  /** Normalisation is idempotent: for every form, what is saved, loaded into a
      form and saved again is the same. */
  lemma SavingIsIdempotent(form: Form)
    ensures Wired(FromWire(Wired(form))) == Wired(form)
  {
    SavesAreWellFormed(form);
    LoadThenSaveKeepsProfile(Wired(form));
  }
}
