/** The mobile form and the stored profile: `toWireProfile`, `fromWireProfile` and
    `resolveCountry`, over exact decimals. */
module MobileProfile {
  import opened Wrappers
  import opened Text
  import opened Decimals
  import opened ProfileWire

  // --------------------------------------------------------------------- countries

  /** The twelve rows of COUNTRIES, by position. */
  const ROWS: nat := 12

  /** The row that lists a name, or 12. */
  function RowOf(name: string): nat {
    if name == "nigeria" || name == "ng" then 0
    else if name == "ghana" || name == "gh" then 1
    else if name == "kenya" || name == "ke" then 2
    else if name == "south africa" || name == "za" then 3
    else if name == "united kingdom" || name == "uk" || name == "england" || name == "scotland" || name == "wales"
            || name == "gb" then 4
    else if name == "united states" || name == "usa" || name == "us" || name == "america" then 5
    else if name == "canada" || name == "ca" then 6
    else if name == "india" || name == "in" then 7
    else if name == "singapore" || name == "sg" then 8
    else if name == "germany" || name == "de" then 9
    else if name == "netherlands" || name == "nl" then 10
    else if name == "united arab emirates" || name == "uae" || name == "ae" || name == "dubai" then 11
    else ROWS
  }

  /** The first name of a row. */
  function FirstName(row: nat): string
    requires row < ROWS
  {
    match row
    case 0 => "nigeria"
    case 1 => "ghana"
    case 2 => "kenya"
    case 3 => "south africa"
    case 4 => "united kingdom"
    case 5 => "united states"
    case 6 => "canada"
    case 7 => "india"
    case 8 => "singapore"
    case 9 => "germany"
    case 10 => "netherlands"
    case _ => "united arab emirates"
  }

  function Code(row: nat): string
    requires row < ROWS
  {
    match row
    case 0 => "NG"
    case 1 => "GH"
    case 2 => "KE"
    case 3 => "ZA"
    case 4 => "GB"
    case 5 => "US"
    case 6 => "CA"
    case 7 => "IN"
    case 8 => "SG"
    case 9 => "DE"
    case 10 => "NL"
    case _ => "AE"
  }

  function Currency(row: nat): string
    requires row < ROWS
  {
    match row
    case 0 => "NGN"
    case 1 => "GHS"
    case 2 => "KES"
    case 3 => "ZAR"
    case 4 => "GBP"
    case 5 => "USD"
    case 6 => "CAD"
    case 7 => "INR"
    case 8 => "SGD"
    case 9 => "EUR"
    case 10 => "EUR"
    case _ => "AED"
  }

  /** `COUNTRIES.find` by code. */
  function RowOfCode(code: string): (row: Option<nat>)
    ensures row.Some? ==> row.value < ROWS
  {
    if code == "NG" then Some(0)
    else if code == "GH" then Some(1)
    else if code == "KE" then Some(2)
    else if code == "ZA" then Some(3)
    else if code == "GB" then Some(4)
    else if code == "US" then Some(5)
    else if code == "CA" then Some(6)
    else if code == "IN" then Some(7)
    else if code == "SG" then Some(8)
    else if code == "DE" then Some(9)
    else if code == "NL" then Some(10)
    else if code == "AE" then Some(11)
    else None
  }

  function Trimmings(parts: seq<string>): seq<string> {
    seq(|parts|, i requires 0 <= i < |parts| => Trim(parts[i]))
  }

  function Parts(location: string): seq<string> {
    Trimmings(Split(LowerCase(Trim(location)), ","))
  }

  /** The first row, from this one on, that lists some part. */
  function FirstRow(parts: seq<string>, row: nat): (r: Option<nat>)
    requires row <= ROWS
    ensures r.Some? ==> row <= r.value < ROWS && exists part <- parts :: RowOf(part) == r.value
    ensures forall part <- parts :: row <= RowOf(part) < ROWS ==> r.Some? && r.value <= RowOf(part)
    decreases ROWS - row
  {
    if row == ROWS then None
    else if exists part <- parts :: RowOf(part) == row then Some(row)
    else FirstRow(parts, row + 1)
  }

  function ResolveCountry(location: string): (r: Option<nat>)
    ensures r.Some? ==> r.value < ROWS
  {
    if Trim(location) == "" then None else FirstRow(Parts(location), 0)
  }

  /** `replace(/\b\w/g, upper)` on the first names, which are letters and spaces. */
  function Title(name: string): string {
    seq(|name|, i requires 0 <= i < |name| => if i == 0 || name[i - 1] == ' ' then Upper(name[i]) else name[i])
  }

  predicate IsPlain(c: char) {
    'a' <= c <= 'z' || c == ' '
  }

  lemma FirstNamesArePlain(row: nat)
    requires row < ROWS
    ensures var name := FirstName(row);
            name != "" && (forall c <- name :: IsPlain(c)) && name[0] != ' ' && Last(name) != ' '
  {
  }

  lemma FirstNameIsListed(row: nat)
    requires row < ROWS
    ensures RowOf(FirstName(row)) == row
  {
  }

  lemma CodeIsListed(row: nat)
    requires row < ROWS
    ensures RowOfCode(Code(row)) == Some(row)
  {
  }

  lemma CodeReadsBack(code: string)
    requires RowOfCode(code).Some?
    ensures Code(RowOfCode(code).value) == code
  {
  }

  lemma PlainUpDown(c: char)
    requires IsPlain(c)
    ensures Lowercased(c) == [c] && Lowercased(Upper(c)) == [c]
  {
  }

  lemma PlainIsNotSpace(c: char)
    requires IsPlain(c) && c != ' '
    ensures !IsJsSpace(c) && !IsJsSpace(Upper(c))
  {
  }

  /** `title` has the letters of `name`, some in upper case. */
  predicate Capitalised(title: string, name: string) {
    |title| == |name| && forall i :: 0 <= i < |name| ==> title[i] == name[i] || title[i] == Upper(name[i])
  }

  lemma {:induction false} LowerTitle(title: string, name: string)
    requires Capitalised(title, name) && forall c <- name :: IsPlain(c)
    ensures LowerCase(title) == name
  {
    hide Upper, Lowercased, IsPlain;
    if name != "" {
      assert name[0] in name;
      PlainUpDown(name[0]);
      LowerTitle(title[1..], name[1..]);
    }
  }

  lemma TitleOfPlain(name: string)
    requires name != "" && (forall c <- name :: IsPlain(c)) && name[0] != ' ' && Last(name) != ' '
    ensures LowerCase(Title(name)) == name && Trimmed(Title(name)) && Trimmed(name) && ',' !in name
  {
    hide Upper, LowerCase, IsJsSpace;
    LowerTitle(Title(name), name);
    assert name[0] in name && Last(name) in name;
    PlainIsNotSpace(name[0]);
    PlainIsNotSpace(Last(name));
    assert Last(Title(name)) == Last(name) || Last(Title(name)) == Upper(Last(name));
  }

  lemma TitleNotEmpty(name: string)
    requires name != ""
    ensures Title(name) != ""
  {
  }

  /** The name shown for a country resolves to that country. */
  lemma ShownNameResolves(row: nat)
    requires row < ROWS
    ensures ResolveCountry(Title(FirstName(row))) == Some(row)
  {
    hide RowOf, FirstName, Title, Split, LowerCase;
    var name := FirstName(row);
    FirstNamesArePlain(row);
    TitleOfPlain(name);
    TrimOfTrimmed(Title(name), IsJsSpace);
    TrimOfTrimmed(name, IsJsSpace);
    SplitNone(name, ',');
    FirstNameIsListed(row);
    var parts := Parts(Title(name));
    assert parts == [name];
    assert name in parts;
    TitleNotEmpty(name);
  }

  /** A location resolves to a row exactly when that is the first row to list one of
      its comma-separated parts. */
  lemma ResolvesToFirstListed(location: string, row: nat)
    ensures ResolveCountry(location) == Some(row) <==>
              && row < ROWS && Trim(location) != ""
              && (exists part <- Parts(location) :: RowOf(part) == row)
              && forall part <- Parts(location) :: RowOf(part) >= row
  {
    hide RowOf, Parts, FirstRow;
    var r := FirstRow(Parts(location), 0);
  }

  lemma {:induction false} BlanksAreLower(s: string)
    requires AllBlank(s, IsJsSpace)
    ensures LowerCase(s) == s
  {
    if s != "" {
      assert s[0] in s && Lowercased(s[0]) == [s[0]];
      hide IsJsSpace, Lowercased;
      BlanksAreLower(s[1..]);
    }
  }

  lemma {:induction false} LowerKeepsCommas(s: string)
    ensures ',' in LowerCase(s) <==> ',' in s
  {
    if s != "" {
      assert ',' in Lowercased(s[0]) <==> s[0] == ',';
      hide Lowercased;
      LowerKeepsCommas(s[1..]);
    }
  }

  lemma PlainIsLower(name: string)
    requires forall c <- name :: IsPlain(c)
    ensures LowerCase(name) == name && ',' !in name
  {
    LowerTitle(name, name);
  }

  lemma CommaIsLower()
    ensures LowerCase(",") == ","
  {
    assert ","[1..] == "";
  }

  lemma LowerLocation(town: string, blanks: string, name: string)
    requires AllBlank(blanks, IsJsSpace) && forall c <- name :: IsPlain(c)
    ensures LowerCase(town + "," + (blanks + name)) == LowerCase(town) + "," + (blanks + name)
  {
    hide LowerCase, IsJsSpace, IsPlain;
    LowerCaseAppend(town + ",", blanks + name);
    LowerCaseAppend(town, ",");
    LowerCaseAppend(blanks, name);
    BlanksAreLower(blanks);
    PlainIsLower(name);
    CommaIsLower();
  }

  lemma NoCommaIn(blanks: string, name: string)
    requires AllBlank(blanks, IsJsSpace) && forall c <- name :: IsPlain(c)
    ensures ',' !in blanks + name
  {
    PlainIsLower(name);
    assert !IsJsSpace(',');
  }

  lemma PartsAre(location: string, a: string, b: string)
    requires Trim(location) == location && Split(LowerCase(location), ",") == [a, b]
    ensures Parts(location) == [Trim(a), Trim(b)]
  {
    hide Trim, Split, LowerCase;
  }

  lemma SplitTown(town: string, rest: string)
    requires ',' !in town && ',' !in rest
    ensures Split(LowerCase(town) + "," + rest, ",") == [LowerCase(town), rest]
  {
    hide Split, LowerCase;
    LowerKeepsCommas(town);
    SplitFirstChar(LowerCase(town), ',', rest);
    SplitNone(rest, ',');
  }

  lemma TrimBefore(blanks: string, name: string)
    requires AllBlank(blanks, IsJsSpace) && Trimmed(name)
    ensures Trim(blanks + name) == name
  {
    TrimAround(blanks, name, "", IsJsSpace);
    assert blanks + name + "" == blanks + name;
  }

  /** A town, a comma and a country, with blanks between: the country is one of the parts. */
  lemma TownAndCountry(town: string, blanks: string, name: string)
    requires ',' !in town && AllBlank(blanks, IsJsSpace)
    requires name != "" && (forall c <- name :: IsPlain(c)) && Trimmed(name) && Trimmed(town + "," + (blanks + name))
    ensures Parts(town + "," + (blanks + name)) == [Trim(LowerCase(town)), name]
  {
    TrimOfTrimmed(town + "," + (blanks + name), IsJsSpace);
    hide Parts, LowerCase, Split, TrimBy, IsJsSpace, IsPlain, AllBlank, TrimmedBy;
    NoCommaIn(blanks, name);
    LowerLocation(town, blanks, name);
    SplitTown(town, blanks + name);
    TrimBefore(blanks, name);
    PartsAre(town + "," + (blanks + name), LowerCase(town), blanks + name);
  }

  /** So the country is found behind the town, unless the town is itself the name of one
      listed before it. */
  lemma TownDoesNotHide(town: string, blanks: string, name: string)
    requires ',' !in town && AllBlank(blanks, IsJsSpace)
    requires name != "" && (forall c <- name :: IsPlain(c)) && Trimmed(name) && Trimmed(town + "," + (blanks + name))
    requires RowOf(name) < ROWS && RowOf(name) <= RowOf(Trim(LowerCase(town)))
    ensures ResolveCountry(town + "," + (blanks + name)) == Some(RowOf(name))
  {
    var location := town + "," + (blanks + name);
    TownAndCountry(town, blanks, name);
    TrimOfTrimmed(location, IsJsSpace);
    hide RowOf, Parts, FirstRow, TrimBy, LowerCase;
    assert name in Parts(location);
    assert forall part <- Parts(location) :: RowOf(part) >= RowOf(name);
    ResolvesToFirstListed(location, RowOf(name));
  }

  /** The other names the table lists, here and below. */
  lemma OtherNames()
    ensures RowOf("uae") == RowOf("dubai") == RowOf("united arab emirates")
  {
  }

  lemma AmericanNames()
    ensures RowOf("usa") == RowOf("america") == RowOf("united states")
  {
  }

  lemma BritishNames()
    ensures RowOf("uk") == RowOf("england") == RowOf("united kingdom")
  {
  }

  lemma NationNames()
    ensures RowOf("scotland") == RowOf("wales") == RowOf("england")
  {
  }

  /** Every country is found by its code, in lower case as it is looked up. */
  lemma CodesAreListed(row: nat)
    requires row < ROWS
    ensures var code := Code(row);
            |code| == 2 && RowOf([Lower(code[0]), Lower(code[1])]) == row
  {
  }

  // ------------------------------------------------------------------- the form

  datatype AppField =
    | Company | Sector | Location | Year | Stage | Description | BusinessModel | Website | LegalName
    | RegistrationNumber | Registrar | IncorporationYear | RegulatoryLicences | MarketSize | Competition
    | GrowthConstraint | UseOfFunds | Revenue | Costs | CostOfRevenue | Cash | TotalRaised | RaiseTarget
    | MarketingSpend | Customers | Arpu | Churn | Cac | ActiveUsers | Pilots | CustomerConcentration
    | DeliveryCostTrend | Founders | FoundersFullTime | TeamSize | IpOwned | ContractsTransferable
    | KeyPersonDependency | FounderExperience | CapTable | Deck

  /** What the founder typed, and whether revenue is stated per year (`revModel`). */
  datatype AppForm = AppForm(answer: AppField -> string, annual: bool)

  function StageWire(name: string): Option<string> {
    if name == "Pre-seed" then Some("pre_seed")
    else if name == "Seed" then Some("seed")
    else if name == "Series A" then Some("series_a")
    else if name == "Growth" then Some("growth")
    else None
  }

  function StageLabel(wire: string): Option<string> {
    if wire == "idea" then Some("Pre-seed")
    else if wire == "pre_seed" then Some("Pre-seed")
    else if wire == "seed" then Some("Seed")
    else if wire == "series_a" then Some("Series A")
    else if wire == "series_b_plus" then Some("Series A")
    else if wire == "growth" then Some("Growth")
    else None
  }

  // ---------------------------------------------------------------- toWireProfile

  const ZERO_DECIMAL: set<string> := {"JPY", "KRW", "VND", "CLP", "ISK", "XAF", "XOF", "UGX", "RWF"}

  function Minor(d: Number, currency: string): Number {
    if currency in ZERO_DECIMAL then d else Scale(d, 2)
  }

  function Major(d: Number, currency: string): Number {
    if currency in ZERO_DECIMAL then d else Scale(d, -2)
  }

  /** How a stored field is made, and from which answer. */
  function AppRow(k: WireKey): Option<(Kind, AppField)> {
    match k
    case DescriptionKey => Some((TextKind, Description))
    case BusinessModelKey => Some((TextKind, BusinessModel))
    case WebsiteKey => Some((TextKind, Website))
    case KeyPersonDependencyKey => Some((TextKind, KeyPersonDependency))
    case MarketSizeNoteKey => Some((TextKind, MarketSize))
    case CompetitionNoteKey => Some((TextKind, Competition))
    case GrowthConstraintKey => Some((TextKind, GrowthConstraint))
    case UseOfFundsKey => Some((TextKind, UseOfFunds))
    case FounderExperienceKey => Some((TextKind, FounderExperience))
    case CapTableSummaryKey => Some((TextKind, CapTable))
    case DeliveryCostTrendKey => Some((TextKind, DeliveryCostTrend))
    case LegalNameKey => Some((TextKind, LegalName))
    case RegistrationNumberKey => Some((TextKind, RegistrationNumber))
    case RegistrarKey => Some((TextKind, Registrar))
    case RegulatoryLicencesKey => Some((TextKind, RegulatoryLicences))
    case IncorporationYearKey => Some((WholeKind, IncorporationYear))
    case FoundedYearKey => Some((WholeKind, Year))
    case FounderCountKey => Some((WholeKind, Founders))
    case FoundersFullTimeKey => Some((WholeKind, FoundersFullTime))
    case TeamSizeKey => Some((WholeKind, TeamSize))
    case ActiveCustomersKey => Some((WholeKind, Customers))
    case MonthlyActiveUsersKey => Some((WholeKind, ActiveUsers))
    case PilotOrLouCountKey => Some((WholeKind, Pilots))
    case MonthlyChurnPercentKey => Some((NumberKind, Churn))
    case LargestCustomerRevenueSharePercentKey => Some((NumberKind, CustomerConcentration))
    case IpOwnedKey => Some((FlagKind, IpOwned))
    case ContractsTransferableKey => Some((FlagKind, ContractsTransferable))
    case MonthlyRevenueMinorKey => Some((MoneyKind, Revenue))
    case CustomerAcquisitionCostMinorKey => Some((MoneyKind, Cac))
    case MonthlyCostsMinorKey => Some((MoneyKind, Costs))
    case CostOfRevenueMinorKey => Some((MoneyKind, CostOfRevenue))
    case CashOnHandMinorKey => Some((MoneyKind, Cash))
    case TotalRaisedMinorKey => Some((MoneyKind, TotalRaised))
    case CurrentRaiseTargetMinorKey => Some((MoneyKind, RaiseTarget))
    case AverageRevenuePerCustomerMinorKey => Some((MoneyKind, Arpu))
    case MonthlyMarketingSpendMinorKey => Some((MoneyKind, MarketingSpend))
    case _ => None
  }

  /** One answer as stored; money `per` months, in a currency if it is known. */
  function Encoded(kind: Kind, typed: string, per: nat, currency: Option<string>): Option<Value>
    requires per > 0
  {
    match kind
    case TextKind => if Trim(typed) == "" then None else Some(Text(Trim(typed)))
    case WholeKind => if N(typed).None? then None else Some(Num(Round(N(typed).value)))
    case NumberKind => if N(typed).None? then None else Some(Num(N(typed).value))
    case FlagKind => if typed == "" then None else Some(Flag(typed == "Yes"))
    case MoneyKind =>
      if currency.None? || N(typed).None? then None
      else Some(Num(RoundedQuotient(Minor(N(typed).value, currency.value), per)))
  }

  function CurrencyOf(row: Option<nat>): Option<string>
    requires row.Some? ==> row.value < ROWS
  {
    if row.Some? then Some(Currency(row.value)) else None
  }

  function CodeOf(row: Option<nat>): Option<string>
    requires row.Some? ==> row.value < ROWS
  {
    if row.Some? then Some(Code(row.value)) else None
  }

  function Country(form: AppForm): (r: Option<nat>)
    ensures r.Some? ==> r.value < ROWS
  {
    ResolveCountry(form.answer(Location))
  }

  /** Months the revenue answer covers. */
  function Per(form: AppForm, k: WireKey): nat {
    if k == MonthlyRevenueMinorKey && form.annual then 12 else 1
  }

  function Entry(form: AppForm, k: WireKey): Option<Value> {
    match AppRow(k)
    case None => None
    case Some((kind, f)) => Encoded(kind, form.answer(f), Per(form, k), CurrencyOf(Country(form)))
  }

  function EntriesOf(form: AppForm): Entries {
    k => Entry(form, k)
  }

  function Wired(form: AppForm): Profile {
    Profile(NonEmpty(Trim(form.answer(Company))), NonEmpty(Trim(form.answer(Sector))), StageWire(form.answer(Stage)),
            CodeOf(Country(form)), CurrencyOf(Country(form)), Collected(EntriesOf(form)))
  }

  const NARRATIVE_ROWS: seq<(WireKey, AppField)> := [
    (MarketSizeNoteKey, MarketSize), (CompetitionNoteKey, Competition), (GrowthConstraintKey, GrowthConstraint),
    (UseOfFundsKey, UseOfFunds), (FounderExperienceKey, FounderExperience), (CapTableSummaryKey, CapTable),
    (DeliveryCostTrendKey, DeliveryCostTrend), (LegalNameKey, LegalName),
    (RegistrationNumberKey, RegistrationNumber), (RegistrarKey, Registrar),
    (RegulatoryLicencesKey, RegulatoryLicences)
  ]

  const COUNT_ROWS: seq<(WireKey, AppField)> := [
    (FounderCountKey, Founders), (FoundersFullTimeKey, FoundersFullTime), (TeamSizeKey, TeamSize),
    (ActiveCustomersKey, Customers), (MonthlyActiveUsersKey, ActiveUsers), (PilotOrLouCountKey, Pilots)
  ]

  const MONEY_ROWS: seq<(WireKey, AppField)> := [
    (MonthlyRevenueMinorKey, Revenue), (CustomerAcquisitionCostMinorKey, Cac), (MonthlyCostsMinorKey, Costs),
    (CostOfRevenueMinorKey, CostOfRevenue), (CashOnHandMinorKey, Cash), (TotalRaisedMinorKey, TotalRaised),
    (CurrentRaiseTargetMinorKey, RaiseTarget), (AverageRevenuePerCustomerMinorKey, Arpu),
    (MonthlyMarketingSpendMinorKey, MarketingSpend)
  ]

  /** An answer reported as not stored. */
  datatype Report = Report(field: AppField, value: string)

  function MoneyReports(form: AppForm, rows: seq<(WireKey, AppField)>): seq<Report> {
    if rows == [] then []
    else
      var f := Last(rows).1;
      var before := MoneyReports(form, Init(rows));
      if Trim(form.answer(f)) != "" then before + [Report(f, form.answer(f))] else before
  }

  function Unmapped(form: AppForm): seq<Report> {
    var location, stage := form.answer(Location), form.answer(Stage);
    var placed := if Country(form).None? && Trim(location) != "" then [Report(Location, location)] else [];
    var staged := if stage != "" && StageWire(stage).None? then [Report(Stage, stage)] else [];
    placed + staged + if Country(form).None? then MoneyReports(form, MONEY_ROWS) else []
  }

  lemma NarrativeRowAgrees(i: nat)
    requires i < |NARRATIVE_ROWS|
    ensures AppRow(NARRATIVE_ROWS[i].0) == Some((TextKind, NARRATIVE_ROWS[i].1))
  {
  }

  lemma CountRowAgrees(i: nat)
    requires i < |COUNT_ROWS|
    ensures AppRow(COUNT_ROWS[i].0) == Some((WholeKind, COUNT_ROWS[i].1))
  {
  }

  lemma MoneyRowAgrees(i: nat)
    requires i < |MONEY_ROWS|
    ensures AppRow(MONEY_ROWS[i].0) == Some((MoneyKind, MONEY_ROWS[i].1))
  {
  }

  const FIRST := {DescriptionKey, BusinessModelKey, WebsiteKey, KeyPersonDependencyKey}

  const SINGLE := {
    IncorporationYearKey, FoundedYearKey, MonthlyChurnPercentKey, LargestCustomerRevenueSharePercentKey
  }

  method PutText(before: map<WireKey, Value>, form: AppForm, k: WireKey, f: AppField, ghost done: set<WireKey>)
    returns (fields: map<WireKey, Value>)
    requires Filled(before, EntriesOf(form), done) && AppRow(k) == Some((TextKind, f))
    ensures Filled(fields, EntriesOf(form), done + {k})
  {
    hide N, Filled, AppRow, Country;
    fields := before;
    PutFills(fields, EntriesOf(form), done, k);
    var typed := form.answer(f);
    if Trim(typed) != "" {
      fields := fields[k := Text(Trim(typed))];
    }
  }

  method PutWhole(before: map<WireKey, Value>, form: AppForm, k: WireKey, f: AppField, ghost done: set<WireKey>)
    returns (fields: map<WireKey, Value>)
    requires Filled(before, EntriesOf(form), done) && AppRow(k) == Some((WholeKind, f))
    ensures Filled(fields, EntriesOf(form), done + {k})
  {
    hide N, Filled, AppRow, Country;
    fields := before;
    PutFills(fields, EntriesOf(form), done, k);
    var parsed := N(form.answer(f));
    if parsed.Some? {
      fields := fields[k := Num(Round(parsed.value))];
    }
  }

  method PutNumber(before: map<WireKey, Value>, form: AppForm, k: WireKey, f: AppField, ghost done: set<WireKey>)
    returns (fields: map<WireKey, Value>)
    requires Filled(before, EntriesOf(form), done) && AppRow(k) == Some((NumberKind, f))
    ensures Filled(fields, EntriesOf(form), done + {k})
  {
    hide N, Filled, AppRow, Country;
    fields := before;
    PutFills(fields, EntriesOf(form), done, k);
    var parsed := N(form.answer(f));
    if parsed.Some? {
      fields := fields[k := Num(parsed.value)];
    }
  }

  method PutFlag(before: map<WireKey, Value>, form: AppForm, k: WireKey, f: AppField, ghost done: set<WireKey>)
    returns (fields: map<WireKey, Value>)
    requires Filled(before, EntriesOf(form), done) && AppRow(k) == Some((FlagKind, f))
    ensures Filled(fields, EntriesOf(form), done + {k})
  {
    hide N, Filled, AppRow, Country;
    fields := before;
    PutFills(fields, EntriesOf(form), done, k);
    if form.answer(f) != "" {
      fields := fields[k := Flag(form.answer(f) == "Yes")];
    }
  }

  method PutMoney(before: map<WireKey, Value>, form: AppForm, k: WireKey, f: AppField, ghost done: set<WireKey>)
    returns (fields: map<WireKey, Value>)
    requires Filled(before, EntriesOf(form), done) && AppRow(k) == Some((MoneyKind, f)) && Country(form).Some?
    ensures Filled(fields, EntriesOf(form), done + {k})
  {
    hide N, Filled, AppRow, Country;
    fields := before;
    PutFills(fields, EntriesOf(form), done, k);
    var currency := Currency(Country(form).value);
    var parsed := N(form.answer(f));
    if parsed.Some? {
      fields := fields[k := Num(RoundedQuotient(Minor(parsed.value, currency), Per(form, k)))];
    }
  }

  method AddTexts(form: AppForm) returns (fields: map<WireKey, Value>)
    ensures Filled(fields, EntriesOf(form), FIRST + Keys(NARRATIVE_ROWS))
  {
    hide Filled, Keys, EntriesOf, NARRATIVE_ROWS;
    fields := map[];
    NothingFilled(EntriesOf(form), NARRATIVE_ROWS);
    NoKeys(NARRATIVE_ROWS);
    fields := PutText(fields, form, DescriptionKey, Description, {});
    assert {} + {DescriptionKey} == {DescriptionKey};
    fields := PutText(fields, form, BusinessModelKey, BusinessModel, {DescriptionKey});
    assert {DescriptionKey} + {BusinessModelKey} == {DescriptionKey, BusinessModelKey};
    fields := PutText(fields, form, WebsiteKey, Website, {DescriptionKey, BusinessModelKey});
    assert {DescriptionKey, BusinessModelKey} + {WebsiteKey} == {DescriptionKey, BusinessModelKey, WebsiteKey};
    fields := PutText(fields, form, KeyPersonDependencyKey, KeyPersonDependency,
                      {DescriptionKey, BusinessModelKey, WebsiteKey});
    assert {DescriptionKey, BusinessModelKey, WebsiteKey} + {KeyPersonDependencyKey} == FIRST;
    ghost var sofar := FIRST;
    NoKeys(NARRATIVE_ROWS);
    assert sofar + {} == sofar;
    for i := 0 to |NARRATIVE_ROWS|
      invariant Filled(fields, EntriesOf(form), sofar + Keys(NARRATIVE_ROWS[..i]))
    {
      NarrativeRowAgrees(i);
      fields := PutText(fields, form, NARRATIVE_ROWS[i].0, NARRATIVE_ROWS[i].1, sofar + Keys(NARRATIVE_ROWS[..i]));
      KeysNext(NARRATIVE_ROWS, i);
      assert sofar + Keys(NARRATIVE_ROWS[..i + 1]) == sofar + Keys(NARRATIVE_ROWS[..i]) + {NARRATIVE_ROWS[i].0};
    }
    assert NARRATIVE_ROWS[..|NARRATIVE_ROWS|] == NARRATIVE_ROWS;
  }

  /** The years, the counts and the percentages. */
  method AddNumbers(before: map<WireKey, Value>, form: AppForm, ghost already: set<WireKey>)
    returns (fields: map<WireKey, Value>)
    requires Filled(before, EntriesOf(form), already)
    ensures Filled(fields, EntriesOf(form), already + SINGLE + Keys(COUNT_ROWS))
  {
    hide Filled, Keys, EntriesOf, COUNT_ROWS;
    fields := PutWhole(before, form, IncorporationYearKey, IncorporationYear, already);
    fields := PutWhole(fields, form, FoundedYearKey, Year, already + {IncorporationYearKey});
    ghost var sofar := already + {IncorporationYearKey} + {FoundedYearKey};
    NoKeys(COUNT_ROWS);
    assert sofar + {} == sofar;
    for i := 0 to |COUNT_ROWS|
      invariant Filled(fields, EntriesOf(form), sofar + Keys(COUNT_ROWS[..i]))
    {
      CountRowAgrees(i);
      fields := PutWhole(fields, form, COUNT_ROWS[i].0, COUNT_ROWS[i].1, sofar + Keys(COUNT_ROWS[..i]));
      KeysNext(COUNT_ROWS, i);
      assert sofar + Keys(COUNT_ROWS[..i + 1]) == sofar + Keys(COUNT_ROWS[..i]) + {COUNT_ROWS[i].0};
    }
    assert COUNT_ROWS[..|COUNT_ROWS|] == COUNT_ROWS;
    sofar := sofar + Keys(COUNT_ROWS);
    fields := PutNumber(fields, form, MonthlyChurnPercentKey, Churn, sofar);
    fields := PutNumber(fields, form, LargestCustomerRevenueSharePercentKey, CustomerConcentration,
                        sofar + {MonthlyChurnPercentKey});
    assert sofar + {MonthlyChurnPercentKey} + {LargestCustomerRevenueSharePercentKey}
        == already + SINGLE + Keys(COUNT_ROWS);
  }

  /** Revenue, by the unit it is stated in, then the other amounts. */
  method AddMoney(before: map<WireKey, Value>, form: AppForm, ghost already: set<WireKey>)
    returns (fields: map<WireKey, Value>)
    requires Filled(before, EntriesOf(form), already) && Country(form).Some?
    ensures Filled(fields, EntriesOf(form), already + Keys(MONEY_ROWS))
  {
    hide Filled, Keys, EntriesOf, MONEY_ROWS, Country;
    fields := before;
    NoKeys(MONEY_ROWS);
    assert already + {} == already;
    for i := 0 to |MONEY_ROWS|
      invariant Filled(fields, EntriesOf(form), already + Keys(MONEY_ROWS[..i]))
    {
      MoneyRowAgrees(i);
      fields := PutMoney(fields, form, MONEY_ROWS[i].0, MONEY_ROWS[i].1, already + Keys(MONEY_ROWS[..i]));
      KeysNext(MONEY_ROWS, i);
      assert already + Keys(MONEY_ROWS[..i + 1]) == already + Keys(MONEY_ROWS[..i]) + {MONEY_ROWS[i].0};
    }
    assert MONEY_ROWS[..|MONEY_ROWS|] == MONEY_ROWS;
  }

  method ReportMoney(form: AppForm) returns (unmapped: seq<Report>)
    ensures unmapped == MoneyReports(form, MONEY_ROWS)
  {
    hide MONEY_ROWS;
    unmapped := [];
    for i := 0 to |MONEY_ROWS|
      invariant unmapped == MoneyReports(form, MONEY_ROWS[..i])
    {
      var f := MONEY_ROWS[i].1;
      assert Init(MONEY_ROWS[..i + 1]) == MONEY_ROWS[..i];
      if Trim(form.answer(f)) != "" {
        unmapped := unmapped + [Report(f, form.answer(f))];
      }
    }
    assert MONEY_ROWS[..|MONEY_ROWS|] == MONEY_ROWS;
  }

  lemma BlankIsUnknown()
    ensures StageWire("").None? && StageLabel("").None? && RowOfCode("").None?
  {
  }

  lemma WrittenAsFlag(k: WireKey)
    requires AppRow(k).Some? && AppRow(k).value.0 == FlagKind
    ensures k == IpOwnedKey || k == ContractsTransferableKey
  {
  }

  lemma WrittenAsMoney(k: WireKey)
    requires AppRow(k).Some? && AppRow(k).value.0 == MoneyKind
    ensures (k, AppRow(k).value.1) in MONEY_ROWS
  {
  }

  lemma WrittenAsNumber(k: WireKey)
    requires AppRow(k).Some? && (AppRow(k).value.0 == WholeKind || AppRow(k).value.0 == NumberKind)
    ensures k in SINGLE || (k, AppRow(k).value.1) in COUNT_ROWS
  {
  }

  lemma WrittenAsText(k: WireKey)
    requires AppRow(k).Some? && AppRow(k).value.0 == TextKind
    ensures k in FIRST || (k, AppRow(k).value.1) in NARRATIVE_ROWS
  {
  }

  /** Every key the app stores is written by one of the steps; money only with a country. */
  lemma EveryKeyIsWritten(form: AppForm, k: WireKey)
    ensures Entry(form, k).Some? ==>
              || k in FIRST + Keys(NARRATIVE_ROWS) + SINGLE + Keys(COUNT_ROWS)
              || k in {IpOwnedKey} + {ContractsTransferableKey}
              || (Country(form).Some? && k in Keys(MONEY_ROWS))
  {
    hide AppRow, Keys, Country, N, FIRST, SINGLE, NARRATIVE_ROWS, COUNT_ROWS, MONEY_ROWS;
    if AppRow(k).Some? {
      var row := (k, AppRow(k).value.1);
      match AppRow(k).value.0 {
        case TextKind => WrittenAsText(k);
        case WholeKind => WrittenAsNumber(k);
        case NumberKind => WrittenAsNumber(k);
        case FlagKind => WrittenAsFlag(k);
        case MoneyKind => WrittenAsMoney(k);
      }
      forall rows | rows in [NARRATIVE_ROWS, COUNT_ROWS, MONEY_ROWS] && row in rows ensures k in Keys(rows) {
        KeyOfRow(rows, row);
      }
    }
  }

  lemma FlagRows()
    ensures AppRow(IpOwnedKey) == Some((FlagKind, IpOwned))
    ensures AppRow(ContractsTransferableKey) == Some((FlagKind, ContractsTransferable))
  {
  }

  /** The stored fields, and the amounts reported instead when the currency is unknown. */
  method Fields(form: AppForm) returns (fields: map<WireKey, Value>, unmapped: seq<Report>)
    ensures fields == Collected(EntriesOf(form))
    ensures unmapped == if Country(form).None? then MoneyReports(form, MONEY_ROWS) else []
  {
    hide Country, Filled, Keys, Entry, AppRow, FIRST, SINGLE, MONEY_ROWS, NARRATIVE_ROWS, COUNT_ROWS, MoneyReports;
    unmapped := [];
    fields := AddTexts(form);
    ghost var done := FIRST + Keys(NARRATIVE_ROWS);
    fields := AddNumbers(fields, form, done);
    done := done + SINGLE + Keys(COUNT_ROWS);
    FlagRows();
    fields := PutFlag(fields, form, IpOwnedKey, IpOwned, done);
    fields := PutFlag(fields, form, ContractsTransferableKey, ContractsTransferable, done + {IpOwnedKey});
    done := done + {IpOwnedKey} + {ContractsTransferableKey};
    if Country(form).Some? {
      fields := AddMoney(fields, form, done);
      done := done + Keys(MONEY_ROWS);
    } else {
      unmapped := ReportMoney(form);
    }
    forall k: WireKey ensures k in done || Entry(form, k).None? {
      EveryKeyIsWritten(form, k);
    }
    FilledIsCollected(fields, EntriesOf(form), done);
  }

  method ToWireProfile(form: AppForm) returns (wire: Profile, unmapped: seq<Report>)
    ensures wire == Wired(form) && unmapped == Unmapped(form)
  {
    hide Trim, Country, Collected, EntriesOf, StageWire, MONEY_ROWS, MoneyReports;
    wire, unmapped := Profile(None, None, None, None, None, map[]), [];
    if Trim(form.answer(Company)) != "" {
      wire := wire.(name := Some(Trim(form.answer(Company))));
    }
    if Trim(form.answer(Sector)) != "" {
      wire := wire.(sector := Some(Trim(form.answer(Sector))));
    }
    var country := Country(form);
    if country.Some? {
      wire := wire.(country := Some(Code(country.value)), currency := Some(Currency(country.value)));
    } else if Trim(form.answer(Location)) != "" {
      unmapped := unmapped + [Report(Location, form.answer(Location))];
    }
    assert StageWire("").None? by { BlankIsUnknown(); }
    if form.answer(Stage) != "" {
      var stage := StageWire(form.answer(Stage));
      if stage.Some? {
        wire := wire.(stage := stage);
      } else {
        unmapped := unmapped + [Report(Stage, form.answer(Stage))];
      }
    }
    var fields, money := Fields(form);
    wire := wire.(fields := fields);
    unmapped := unmapped + money;
  }

  // -------------------------------------------------------------- fromWireProfile

  function TextOf(v: Option<Value>): string {
    if v.Some? && v.value.Text? then v.value.text else ""
  }

  function NumOf(v: Option<Value>): string {
    if v.Some? && v.value.Num? then Print(v.value.num) else ""
  }

  function YesNoOf(v: Option<Value>): string {
    if v.Some? && v.value.Flag? then if v.value.flag then "Yes" else "No" else ""
  }

  function MajorOf(v: Option<Value>, currency: string): string {
    if v.Some? && v.value.Num? then Print(Major(v.value.num, currency)) else ""
  }

  function Shown(kind: Kind, v: Option<Value>, currency: string): string {
    match kind
    case TextKind => TextOf(v)
    case WholeKind => NumOf(v)
    case NumberKind => NumOf(v)
    case FlagKind => YesNoOf(v)
    case MoneyKind => MajorOf(v, currency)
  }

  const COST_TRENDS: set<string> := {"Falling", "Flat", "Rising"}

  function OrUsd(currency: Option<string>): string {
    if currency.Some? then currency.value else "USD"
  }

  /** A cost trend that is not one of the three does not fit the control. */
  function AnswerShown(kind: Kind, trend: bool, v: Option<Value>, currency: string): string {
    var shown := Shown(kind, v, currency);
    if trend && shown !in COST_TRENDS then "" else shown
  }

  /** Which stored field each answer shows, and how; the first four come from the
      profile's own columns, and the deck is never stored here. */
  function ShownRow(f: AppField): Option<(Kind, WireKey)> {
    match f
    case Year => Some((WholeKind, FoundedYearKey))
    case Description => Some((TextKind, DescriptionKey))
    case BusinessModel => Some((TextKind, BusinessModelKey))
    case Website => Some((TextKind, WebsiteKey))
    case LegalName => Some((TextKind, LegalNameKey))
    case RegistrationNumber => Some((TextKind, RegistrationNumberKey))
    case Registrar => Some((TextKind, RegistrarKey))
    case IncorporationYear => Some((WholeKind, IncorporationYearKey))
    case RegulatoryLicences => Some((TextKind, RegulatoryLicencesKey))
    case MarketSize => Some((TextKind, MarketSizeNoteKey))
    case Competition => Some((TextKind, CompetitionNoteKey))
    case GrowthConstraint => Some((TextKind, GrowthConstraintKey))
    case UseOfFunds => Some((TextKind, UseOfFundsKey))
    case Revenue => Some((MoneyKind, MonthlyRevenueMinorKey))
    case Costs => Some((MoneyKind, MonthlyCostsMinorKey))
    case CostOfRevenue => Some((MoneyKind, CostOfRevenueMinorKey))
    case Cash => Some((MoneyKind, CashOnHandMinorKey))
    case TotalRaised => Some((MoneyKind, TotalRaisedMinorKey))
    case RaiseTarget => Some((MoneyKind, CurrentRaiseTargetMinorKey))
    case MarketingSpend => Some((MoneyKind, MonthlyMarketingSpendMinorKey))
    case Customers => Some((WholeKind, ActiveCustomersKey))
    case Arpu => Some((MoneyKind, AverageRevenuePerCustomerMinorKey))
    case Churn => Some((NumberKind, MonthlyChurnPercentKey))
    case Cac => Some((MoneyKind, CustomerAcquisitionCostMinorKey))
    case ActiveUsers => Some((WholeKind, MonthlyActiveUsersKey))
    case Pilots => Some((WholeKind, PilotOrLouCountKey))
    case CustomerConcentration => Some((NumberKind, LargestCustomerRevenueSharePercentKey))
    case DeliveryCostTrend => Some((TextKind, DeliveryCostTrendKey))
    case Founders => Some((WholeKind, FounderCountKey))
    case FoundersFullTime => Some((WholeKind, FoundersFullTimeKey))
    case TeamSize => Some((WholeKind, TeamSizeKey))
    case IpOwned => Some((FlagKind, IpOwnedKey))
    case ContractsTransferable => Some((FlagKind, ContractsTransferableKey))
    case KeyPersonDependency => Some((TextKind, KeyPersonDependencyKey))
    case FounderExperience => Some((TextKind, FounderExperienceKey))
    case CapTable => Some((TextKind, CapTableSummaryKey))
    case _ => None
  }

  function LocationOf(country: Option<string>): string {
    var row := RowOfCode(OrEmpty(country));
    if row.Some? then Title(FirstName(row.value)) else ""
  }

  function Answer(p: Profile, f: AppField): string {
    match ShownRow(f)
    case Some((kind, k)) =>
      AnswerShown(kind, k == DeliveryCostTrendKey, Stored(p, k), OrUsd(p.currency))
    case None =>
      if f == Company then OrEmpty(p.name)
      else if f == Sector then OrEmpty(p.sector)
      else if f == Location then LocationOf(p.country)
      else if f == Stage then OrEmpty(StageLabel(OrEmpty(p.stage)))
      else ""
  }

  /** Revenue always comes back as monthly. */
  function FromWire(p: Profile): AppForm {
    AppForm(f => Answer(p, f), false)
  }

  // --------------------------------------------------------- nothing lost in silence

  /** The answer is somewhere in the payload. */
  predicate Saved(form: AppForm, f: AppField) {
    match ShownRow(f)
    case Some((_, k)) => k in Wired(form).fields
    case None =>
      if f == Company then Wired(form).name.Some?
      else if f == Sector then Wired(form).sector.Some?
      else if f == Location then Wired(form).country.Some?
      else if f == Stage then Wired(form).stage.Some?
      else false
  }

  /** The answer is reported as not stored. */
  predicate Reported(form: AppForm, f: AppField) {
    Report(f, form.answer(f)) in Unmapped(form)
  }

  /** A number nobody can read: not a finite number, and not an amount that is
      reported anyway for want of a currency. */
  predicate Unreadable(form: AppForm, f: AppField) {
    match ShownRow(f)
    case None => false
    case Some((kind, _)) =>
      && N(form.answer(f)).None?
      && (kind == WholeKind || kind == NumberKind || (kind == MoneyKind && Country(form).Some?))
  }

  lemma NarrativeRowShows(i: nat)
    requires i < |NARRATIVE_ROWS|
    ensures ShownRow(NARRATIVE_ROWS[i].1) == Some((TextKind, NARRATIVE_ROWS[i].0))
  {
  }

  lemma CountRowShows(i: nat)
    requires i < |COUNT_ROWS|
    ensures ShownRow(COUNT_ROWS[i].1) == Some((WholeKind, COUNT_ROWS[i].0))
  {
  }

  lemma MoneyRowShows(i: nat)
    requires i < |MONEY_ROWS|
    ensures ShownRow(MONEY_ROWS[i].1) == Some((MoneyKind, MONEY_ROWS[i].0))
  {
  }

  lemma FirstMatch(k: WireKey)
    requires k in FIRST
    ensures AppRow(k).Some? && ShownRow(AppRow(k).value.1) == Some((AppRow(k).value.0, k))
  {
  }

  lemma SinglesMatch(k: WireKey)
    requires k in SINGLE
    ensures AppRow(k).Some? && ShownRow(AppRow(k).value.1) == Some((AppRow(k).value.0, k))
  {
  }

  lemma FlagsMatch(k: WireKey)
    requires k == IpOwnedKey || k == ContractsTransferableKey
    ensures AppRow(k).Some? && ShownRow(AppRow(k).value.1) == Some((AppRow(k).value.0, k))
  {
  }

  /** The table of `fromWireProfile` shows each key in the answer `toWireProfile`
      reads it from. */
  lemma TablesMatch(k: WireKey)
    requires AppRow(k).Some?
    ensures ShownRow(AppRow(k).value.1) == Some((AppRow(k).value.0, k))
  {
    hide AppRow, ShownRow, FIRST, SINGLE, NARRATIVE_ROWS, COUNT_ROWS, MONEY_ROWS;
    var row := (k, AppRow(k).value.1);
    match AppRow(k).value.0 {
      case TextKind => WrittenAsText(k);
      case WholeKind => WrittenAsNumber(k);
      case NumberKind => WrittenAsNumber(k);
      case FlagKind => WrittenAsFlag(k);
      case MoneyKind => WrittenAsMoney(k);
    }
    if row in NARRATIVE_ROWS {
      var i :| 0 <= i < |NARRATIVE_ROWS| && NARRATIVE_ROWS[i] == row;
      NarrativeRowShows(i);
      NarrativeRowAgrees(i);
    } else if row in COUNT_ROWS {
      var i :| 0 <= i < |COUNT_ROWS| && COUNT_ROWS[i] == row;
      CountRowShows(i);
      CountRowAgrees(i);
    } else if row in MONEY_ROWS {
      var i :| 0 <= i < |MONEY_ROWS| && MONEY_ROWS[i] == row;
      MoneyRowShows(i);
      MoneyRowAgrees(i);
    } else if k in FIRST {
      FirstMatch(k);
    } else if k in SINGLE {
      SinglesMatch(k);
    } else {
      FlagsMatch(k);
    }
  }

  lemma TextIsStored(f: AppField)
    requires ShownRow(f).Some? && ShownRow(f).value.0 == TextKind
    ensures AppRow(ShownRow(f).value.1) == Some((TextKind, f))
  {
  }

  lemma WholeIsStored(f: AppField)
    requires ShownRow(f).Some? && ShownRow(f).value.0 == WholeKind
    ensures AppRow(ShownRow(f).value.1) == Some((WholeKind, f))
  {
  }

  lemma NumberOrFlagIsStored(f: AppField)
    requires ShownRow(f).Some? && (ShownRow(f).value.0 == NumberKind || ShownRow(f).value.0 == FlagKind)
    ensures AppRow(ShownRow(f).value.1) == Some((ShownRow(f).value.0, f))
  {
  }

  lemma MoneyIsStored(f: AppField)
    requires ShownRow(f).Some? && ShownRow(f).value.0 == MoneyKind
    ensures AppRow(ShownRow(f).value.1) == Some((MoneyKind, f))
  {
    var row := (ShownRow(f).value.1, f);
    assert row in MONEY_ROWS;
    hide ShownRow, AppRow, MONEY_ROWS;
    var i :| 0 <= i < |MONEY_ROWS| && MONEY_ROWS[i] == row;
    MoneyRowAgrees(i);
  }

  /** And the other way: each answer is stored under the key it is shown from. */
  lemma FieldIsStored(f: AppField)
    requires ShownRow(f).Some?
    ensures AppRow(ShownRow(f).value.1) == Some((ShownRow(f).value.0, f))
  {
    hide ShownRow, AppRow;
    match ShownRow(f).value.0 {
      case TextKind => TextIsStored(f);
      case WholeKind => WholeIsStored(f);
      case NumberKind => NumberOrFlagIsStored(f);
      case FlagKind => NumberOrFlagIsStored(f);
      case MoneyKind => MoneyIsStored(f);
    }
  }

  predicate Listed(f: AppField, rows: seq<(WireKey, AppField)>) {
    exists i :: 0 <= i < |rows| && rows[i].1 == f
  }

  lemma {:induction false} MoneyReportsExactly(form: AppForm, rows: seq<(WireKey, AppField)>, r: Report)
    ensures r in MoneyReports(form, rows) <==>
              Listed(r.field, rows) && r.value == form.answer(r.field) && Trim(r.value) != ""
  {
    if rows != [] {
      hide Trim;
      MoneyReportsExactly(form, Init(rows), r);
      assert Last(rows).1 == r.field ==> Listed(r.field, rows);
      assert Listed(r.field, Init(rows)) ==> Listed(r.field, rows);
      assert Listed(r.field, rows) ==> Listed(r.field, Init(rows)) || Last(rows).1 == r.field;
    }
  }

  predicate IsMoney(f: AppField) {
    ShownRow(f).Some? && ShownRow(f).value.0 == MoneyKind
  }

  lemma MoneyIsListed(f: AppField)
    ensures Listed(f, MONEY_ROWS) <==> IsMoney(f)
  {
    hide AppRow, ShownRow, MONEY_ROWS;
    if IsMoney(f) {
      FieldIsStored(f);
      WrittenAsMoney(ShownRow(f).value.1);
    }
    if Listed(f, MONEY_ROWS) {
      var i :| 0 <= i < |MONEY_ROWS| && MONEY_ROWS[i].1 == f;
      MoneyRowShows(i);
    }
  }

  /** What is reported: a location or stage not recognised, and every amount typed
      when the currency is unknown. */
  lemma ReportedExactly(form: AppForm, f: AppField)
    ensures Reported(form, f) <==>
              || (f == Location && Country(form).None? && Trim(form.answer(f)) != "")
              || (f == Stage && form.answer(f) != "" && StageWire(form.answer(f)).None?)
              || (IsMoney(f) && Country(form).None? && Trim(form.answer(f)) != "")
  {
    hide AppRow, MONEY_ROWS, MoneyReports, StageWire, Country, Trim, Listed, ShownRow;
    MoneyReportsExactly(form, MONEY_ROWS, Report(f, form.answer(f)));
    MoneyIsListed(f);
  }

  lemma SavedExactly(form: AppForm, f: AppField)
    ensures Saved(form, f) <==>
              match ShownRow(f)
              case Some((_, k)) => Entry(form, k).Some?
              case None =>
                || (f == Company && Trim(form.answer(f)) != "")
                || (f == Sector && Trim(form.answer(f)) != "")
                || (f == Location && Country(form).Some?)
                || (f == Stage && StageWire(form.answer(f)).Some?)
  {
    hide ShownRow, Entry, StageWire, Country, Trim;
  }

  lemma ColumnsAreNotShown(f: AppField)
    requires ShownRow(f).Some?
    ensures f != Company && f != Sector && f != Location && f != Stage && f != Deck
  {
  }

  lemma CountryNeedsAnAnswer(form: AppForm)
    ensures Country(form).Some? ==> Trim(form.answer(Location)) != ""
  {
  }

  lemma OnlyColumnsAreNotShown(f: AppField)
    requires ShownRow(f).None?
    ensures f == Company || f == Sector || f == Location || f == Stage || f == Deck
  {
  }

  /** No answer is lost in silence: every answer typed, other than the deck, is in
      the payload or in the report, never in both, and in neither exactly when it
      should be a number, cannot be read as one, and is not a reported amount. */
  lemma LostOnlyIfUnreadable(form: AppForm, f: AppField)
    requires f != Deck && Trim(form.answer(f)) != ""
    ensures !(Saved(form, f) && Reported(form, f))
    ensures Saved(form, f) || Reported(form, f) <==> !Unreadable(form, f)
  {
    hide Trim, N, Country, StageWire, AppRow, ShownRow, Saved, Reported, Round, RoundedQuotient, Minor;
    SavedExactly(form, f);
    ReportedExactly(form, f);
    BlankIsUnknown();
    NothingReadsAsNone();
    if ShownRow(f).Some? {
      FieldIsStored(f);
      ColumnsAreNotShown(f);
    } else {
      OnlyColumnsAreNotShown(f);
    }
    CountryNeedsAnAnswer(form);
  }

  // ------------------------------------------------------------------ round trips

  /** The part of a stored profile the app knows. */
  function Known(p: Profile): Profile {
    p.(fields := map k: WireKey | AppRow(k).Some? && k in p.fields :: p.fields[k])
  }

  /** What the app can have stored, for a kind of field; the cost trend is one of three. */
  predicate WellStoredAs(kind: Kind, trend: bool, v: Option<Value>, inCountry: bool) {
    v.Some? ==>
      match kind
      case TextKind =>
        && v.value.Text? && v.value.text != "" && Trimmed(v.value.text)
        && (trend ==> v.value.text in COST_TRENDS)
      case WholeKind => v.value.Num? && IsInteger(v.value.num)
      case NumberKind => v.value.Num?
      case FlagKind => v.value.Flag?
      case MoneyKind => v.value.Num? && IsInteger(v.value.num) && inCountry
  }

  predicate WellStored(k: WireKey, v: Option<Value>, inCountry: bool)
    requires AppRow(k).Some?
  {
    WellStoredAs(AppRow(k).value.0, k == DeliveryCostTrendKey, v, inCountry)
  }

  ghost predicate AllWellStored(p: Profile) {
    forall k: WireKey :: AppRow(k).Some? ==> WellStored(k, Stored(p, k), p.country.Some?)
  }

  /** One of the four stages of the six that the app's form can hold. */
  predicate AppStage(stage: Option<string>) {
    stage.Some? ==> stage.value in {"pre_seed", "seed", "series_a", "growth"}
  }

  predicate WellStoredCountry(p: Profile) {
    if p.country.Some? then
      RowOfCode(p.country.value).Some? && p.currency == Some(Currency(RowOfCode(p.country.value).value))
    else p.currency.None?
  }

  ghost predicate WellFormed(p: Profile) {
    && WellStoredText(p.name) && WellStoredText(p.sector)
    && AppStage(p.stage)
    && WellStoredCountry(p)
    && AllWellStored(p)
  }

  lemma MinorOfMajor(d: Number, currency: string)
    ensures Minor(Major(d, currency), currency) == d
  {
  }

  lemma BlankIsNoTrend()
    ensures "" !in COST_TRENDS
  {
  }

  /** Showing a stored value and storing the answer again gives it back exactly when
      the app can have stored it. */
  lemma ValueReadsBack(kind: Kind, trend: bool, v: Option<Value>, currency: Option<string>)
    requires trend ==> kind == TextKind
    ensures (Encoded(kind, AnswerShown(kind, trend, v, OrUsd(currency)), 1, currency) == v)
            == WellStoredAs(kind, trend, v, currency.Some?)
  {
    hide N, Print, Round, Scale, Minor, Major;
    NothingReadsAsNone();
    BlankIsNoTrend();
    if v.Some? {
      match v.value {
        case Text(s) =>
          TrimIsTrimmed(s, IsJsSpace);
          if Trimmed(s) {
            TrimOfTrimmed(s, IsJsSpace);
          }
        case Num(d) =>
          NumberReadsBack(d);
          NumberReadsBack(Major(d, OrUsd(currency)));
          MinorOfMajor(d, OrUsd(currency));
          RoundIsInteger(d);
          if IsInteger(d) {
            RoundOfInteger(d);
          }
        case Flag(_) =>
      }
    }
  }

  lemma StageReadsBack(stage: Option<string>)
    ensures StageWire(OrEmpty(StageLabel(OrEmpty(stage)))) == stage <==> AppStage(stage)
  {
  }

  lemma BlankResolvesToNothing()
    ensures ResolveCountry("").None?
  {
  }

  lemma ColumnAnswers(p: Profile)
    ensures Answer(p, Company) == OrEmpty(p.name) && Answer(p, Sector) == OrEmpty(p.sector)
    ensures Answer(p, Location) == LocationOf(p.country)
    ensures Answer(p, Stage) == OrEmpty(StageLabel(OrEmpty(p.stage)))
  {
  }

  lemma CountryReadsBack(p: Profile)
    ensures var row := Country(FromWire(p));
            CodeOf(row) == p.country && CurrencyOf(row) == p.currency <==> WellStoredCountry(p)
    ensures Country(FromWire(p)).Some? ==> CodeOf(Country(FromWire(p))) == p.country
  {
    hide ShownRow, ResolveCountry, RowOfCode, FirstName, Title, Currency, Code;
    ColumnAnswers(p);
    BlankIsUnknown();
    var found := RowOfCode(OrEmpty(p.country));
    if found.Some? {
      ShownNameResolves(found.value);
      CodeReadsBack(OrEmpty(p.country));
    } else {
      BlankResolvesToNothing();
    }
  }

  lemma TrendIsStored()
    ensures AppRow(DeliveryCostTrendKey) == Some((TextKind, DeliveryCostTrend))
  {
  }

  lemma EntryShown(p: Profile, k: WireKey)
    requires AppRow(k).Some? && CurrencyOf(Country(FromWire(p))) == p.currency
    ensures Entry(FromWire(p), k) == Stored(p, k) <==> WellStored(k, Stored(p, k), p.currency.Some?)
  {
    hide AppRow, ShownRow, Encoded, AnswerShown, WellStoredAs, Country, CurrencyOf;
    TablesMatch(k);
    TrendIsStored();
    ValueReadsBack(AppRow(k).value.0, k == DeliveryCostTrendKey, Stored(p, k), p.currency);
  }

  lemma UnknownKeyIsUnused(form: AppForm, k: WireKey)
    requires AppRow(k).None?
    ensures Entry(form, k).None?
  {
  }

  lemma FieldsReadBack(p: Profile)
    requires CurrencyOf(Country(FromWire(p))) == p.currency && (p.currency.Some? <==> p.country.Some?)
    ensures Collected(EntriesOf(FromWire(p))) == Known(p).fields <==> AllWellStored(p)
  {
    hide AppRow, Entry, WellStored, Country, CurrencyOf, Collected;
    var entry, known := EntriesOf(FromWire(p)), Known(p);
    forall k: WireKey
      ensures AppRow(k).Some? ==> (entry(k) == Stored(known, k) <==> WellStored(k, Stored(p, k), p.country.Some?))
      ensures AppRow(k).None? ==> entry(k) == Stored(known, k)
    {
      if AppRow(k).Some? {
        EntryShown(p, k);
      } else {
        UnknownKeyIsUnused(FromWire(p), k);
      }
    }
    CollectedIsStored(entry, known);
  }

  /** Loading a stored profile into the app and saving it sends back what the app
      knows of it, unchanged, exactly when the app can have stored it. */
  lemma LoadThenSaveKeepsProfile(p: Profile)
    ensures Wired(FromWire(p)) == Known(p) <==> WellFormed(p)
  {
    hide AppRow, Entry, WellStored, Country, CurrencyOf, CodeOf, StageWire, StageLabel, Trim, WellStoredText, AppStage,
      Collected, ShownRow, AllWellStored, RowOfCode, Currency;
    ColumnAnswers(p);
    TextReadsBack(p.name);
    TextReadsBack(p.sector);
    StageReadsBack(p.stage);
    CountryReadsBack(p);
    if WellStoredCountry(p) {
      FieldsReadBack(p);
    }
  }

  /** Two of the server's six stages do not survive: the app has no word for them. */
  lemma TwoStagesAreChanged(p: Profile)
    ensures p.stage == Some("idea") ==> Wired(FromWire(p)).stage == Some("pre_seed")
    ensures p.stage == Some("series_b_plus") ==> Wired(FromWire(p)).stage == Some("series_a")
  {
    ColumnAnswers(p);
    hide Answer, Country, Collected, EntriesOf, Trim;
  }

  predicate AppTrend(form: AppForm) {
    Trim(form.answer(DeliveryCostTrend)) in {"Falling", "Flat", "Rising", ""}
  }

  lemma EncodedIsWellStored(kind: Kind, trend: bool, typed: string, per: nat, currency: Option<string>)
    requires per > 0 && (trend ==> kind == TextKind)
    ensures WellStoredAs(kind, trend, Encoded(kind, typed, per, currency), currency.Some?) <==>
              (trend ==> Trim(typed) in {"Falling", "Flat", "Rising", ""})
  {
    hide N, Round, RoundedQuotient, Minor;
    TrimIsTrimmed(typed, IsJsSpace);
    assert Trimmed(Trim(typed));
    hide Trim;
    if N(typed).Some? {
      RoundIsInteger(N(typed).value);
      if currency.Some? {
        RoundedQuotientIsInteger(Minor(N(typed).value, currency.value), per);
      }
    }
  }

  lemma EntryIsWellStored(form: AppForm, k: WireKey)
    requires AppRow(k).Some?
    ensures WellStored(k, Entry(form, k), Country(form).Some?) <==> (k == DeliveryCostTrendKey ==> AppTrend(form))
  {
    hide AppRow, Encoded, WellStoredAs, Country, Currency, Trim;
    var (kind, f) := AppRow(k).value;
    TrendIsStored();
    EncodedIsWellStored(kind, k == DeliveryCostTrendKey, form.answer(f), Per(form, k), CurrencyOf(Country(form)));
  }

  lemma StageIsAppStage(stage: string)
    ensures AppStage(StageWire(stage))
  {
  }

  /** A save is what the app can have stored, as long as the cost trend is one of
      the three the form offers or blank. */
  lemma SavesAreWellFormed(form: AppForm)
    ensures WellFormed(Wired(form)) <==> AppTrend(form)
  {
    hide AppRow, Entry, WellStored, Country, StageWire, Trim, Trimmed, RowOfCode, Code, Currency, AppTrend;
    var p := Wired(form);
    TrimmedAnswer(form.answer(Company));
    TrimmedAnswer(form.answer(Sector));
    StageIsAppStage(form.answer(Stage));
    if Country(form).Some? {
      CodeIsListed(Country(form).value);
    }
    assert WellStoredCountry(p);
    TrendIsStored();
    forall k: WireKey | AppRow(k).Some?
      ensures WellStored(k, Stored(p, k), p.country.Some?) <==> (k == DeliveryCostTrendKey ==> AppTrend(form))
    {
      EntryIsWellStored(form, k);
      assert Stored(p, k) == Entry(form, k);
    }
  }

  lemma SavesAreKnown(form: AppForm)
    ensures Known(Wired(form)) == Wired(form)
  {
    hide AppRow, Encoded, Country, StageWire, Trim;
    var p := Wired(form);
    forall k: WireKey | AppRow(k).None? ensures Entry(form, k).None? {
      UnknownKeyIsUnused(form, k);
    }
    assert Known(p).fields == p.fields;
  }

  /** Mapping the read-back form again gives the same payload, annual revenue turned
      into monthly minor units included, exactly for the cost trends on offer. */
  lemma RemappingGivesSamePayload(form: AppForm)
    ensures Wired(FromWire(Wired(form))) == Wired(form) <==> AppTrend(form)
  {
    hide *;
    SavesAreWellFormed(form);
    LoadThenSaveKeepsProfile(Wired(form));
    SavesAreKnown(form);
  }
}
