/** The stored startup profile as both clients send and receive it, and what their
    two mappings share: reading typed numbers and filling `fields` key by key. */
module ProfileWire {
  import opened Wrappers
  import opened Text
  import opened Decimals

  datatype WireKey =
    | DescriptionKey | BusinessModelKey | WebsiteKey | MarketSizeNoteKey | CompetitionNoteKey
    | GrowthConstraintKey | UseOfFundsKey | DeliveryCostTrendKey | FounderExperienceKey | CapTableSummaryKey
    | KeyPersonDependencyKey | HiringGapsKey | SupplierDependenciesKey | ChannelDependencyKey
    | MaterialContractsNoteKey | LegalNameKey | RegistrationNumberKey | RegistrarKey | RegulatoryLicencesKey
    | CapitalMixNoteKey | TaxFilingStatusKey | FxExposureNoteKey | LocalContentOrOwnershipNoteKey
    | FoundedYearKey | IncorporationYearKey | FounderCountKey | FoundersFullTimeKey | TeamSizeKey
    | ActiveCustomersKey | MonthlyActiveUsersKey | PilotOrLouCountKey | TypicalContractMonthsKey
    | MonthlyChurnPercentKey | LargestCustomerRevenueSharePercentKey | RecurringRevenuePercentKey | IpOwnedKey
    | ContractsTransferableKey | OperationsDocumentedKey | SystemsInCompanyNameKey
    | TradingBeforeIncorporationKey | MonthlyRevenueMinorKey | MonthlyCostsMinorKey | CostOfRevenueMinorKey
    | CashOnHandMinorKey | Last12mRevenueMinorKey | MonthlyRevenue3mAgoMinorKey | MonthlyCosts3mAgoMinorKey
    | MonthlyMarketingSpendMinorKey | TotalRaisedMinorKey | CurrentRaiseTargetMinorKey | FounderSalaryMinorKey
    | AverageRevenuePerCustomerMinorKey | CustomerAcquisitionCostMinorKey

  datatype Value = Text(text: string) | Num(num: Number) | Flag(flag: bool)

  /** A profile as sent or stored; `fields` holds the keys that have a value. */
  datatype Profile = Profile(name: Option<string>, sector: Option<string>, stage: Option<string>,
                             country: Option<string>, currency: Option<string>, fields: map<WireKey, Value>)

  datatype Kind = TextKind | WholeKind | NumberKind | FlagKind | MoneyKind

  function OrEmpty(s: Option<string>): string {
    if s.Some? then s.value else ""
  }

  function NonEmpty(s: string): Option<string> {
    if s == "" then None else Some(s)
  }

  function Stored(p: Profile, k: WireKey): Option<Value> {
    if k in p.fields then Some(p.fields[k]) else None
  }

  // ---------------------------------------------------------------- typed numbers

  predicate IsGroupMark(c: char) {
    c == ',' || c == ' '
  }

  /** `n` and `num`: the number typed, without grouping commas and spaces; None when blank or
      not a finite number. */
  function N(v: string): Option<Number> {
    var t := Remove(Trim(v), IsGroupMark);
    if t == "" then None else Read(t)
  }

  lemma NumberReadsBack(d: Number)
    ensures N(Print(d)) == Some(d)
  {
    hide Print, Read;
    var s := Print(d);
    PrintsNumberChars(d);
    assert s[0] in s && Last(s) in s;
    TrimOfTrimmed(s, IsJsSpace);
    RemoveNothing(s, IsGroupMark);
    ReadPrint(d);
  }

  lemma NothingReadsAsNone()
    ensures N("").None? && Trim("") == ""
  {
  }

  // ------------------------------------------------------------------ name and sector

  /** What a save can have stored in a text column. */
  predicate WellStoredText(s: Option<string>) {
    s.Some? ==> s.value != "" && Trimmed(s.value)
  }

  /** A column shown in the form and saved again is unchanged exactly when a save can
      have stored it. */
  lemma TextReadsBack(s: Option<string>)
    ensures NonEmpty(Trim(OrEmpty(s))) == s <==> WellStoredText(s)
  {
    TrimIsTrimmed(OrEmpty(s), IsJsSpace);
    if Trimmed(OrEmpty(s)) {
      TrimOfTrimmed(OrEmpty(s), IsJsSpace);
    }
  }

  lemma TrimmedAnswer(typed: string)
    ensures WellStoredText(NonEmpty(Trim(typed)))
  {
    TrimIsTrimmed(typed, IsJsSpace);
  }

  // -------------------------------------------------------------- filling `fields`

  /** What each key is to hold. */
  type Entries = WireKey -> Option<Value>

  function Collected(entry: Entries): map<WireKey, Value> {
    map k: WireKey | entry(k).Some? :: entry(k).value
  }

  /** The fields filled in for the keys done, and for no others. */
  predicate Filled(fields: map<WireKey, Value>, entry: Entries, done: set<WireKey>) {
    forall k: WireKey ::
      && (k in fields <==> k in done && entry(k).Some?)
      && (k in fields && k in done ==> entry(k) == Some(fields[k]))
  }

  function Put(fields: map<WireKey, Value>, k: WireKey, value: Option<Value>): map<WireKey, Value> {
    if value.Some? then fields[k := value.value] else fields
  }

  lemma PutFills(fields: map<WireKey, Value>, entry: Entries, done: set<WireKey>, k: WireKey)
    requires Filled(fields, entry, done)
    ensures Filled(Put(fields, k, entry(k)), entry, done + {k})
  {
  }

  ghost function Keys<F>(rows: seq<(WireKey, F)>): set<WireKey> {
    set row <- rows :: row.0
  }

  lemma KeysNext<F>(rows: seq<(WireKey, F)>, i: nat)
    requires i < |rows|
    ensures Keys(rows[..i + 1]) == Keys(rows[..i]) + {rows[i].0}
  {
    assert rows[..i + 1] == rows[..i] + [rows[i]];
  }

  lemma NoKeys<F>(rows: seq<(WireKey, F)>)
    ensures Keys(rows[..0]) == {}
  {
  }

  lemma KeyOfRow<F>(rows: seq<(WireKey, F)>, row: (WireKey, F))
    requires row in rows
    ensures row.0 in Keys(rows)
  {
  }

  lemma NothingFilled<F>(entry: Entries, rows: seq<(WireKey, F)>)
    ensures Filled(map[], entry, Keys(rows[..0]))
  {
  }

  lemma FilledIsCollected(fields: map<WireKey, Value>, entry: Entries, done: set<WireKey>)
    requires Filled(fields, entry, done) && forall k: WireKey :: k in done || entry(k).None?
    ensures fields == Collected(entry)
  {
  }

  /** Sending back what is stored, key by key. */
  lemma CollectedIsStored(entry: Entries, p: Profile)
    ensures Collected(entry) == p.fields <==> forall k: WireKey :: entry(k) == Stored(p, k)
  {
    var q := Collected(entry);
    assert forall k: WireKey :: entry(k) == if k in q then Some(q[k]) else None;
    if forall k: WireKey :: entry(k) == Stored(p, k) {
      assert forall k: WireKey :: (k in q <==> k in p.fields) && (k in q ==> q[k] == p.fields[k]);
      assert q == p.fields;
    }
  }
}
