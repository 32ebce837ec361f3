/** The two clients against each other: the same answers give the same stored profile,
    as far as the app knows it. */
module ClientsAgree {
  import opened Wrappers
  import opened Text
  import opened Decimals
  import opened ProfileWire
  import Web = WebProfile
  import Mobile = MobileProfile

  // ---------------------------------------------------------- countries and stages

  /** The name the web form has for each country of the app. */
  function WebName(row: nat): string
    requires row < Mobile.ROWS
  {
    match row
    case 0 => "Nigeria"
    case 1 => "Ghana"
    case 2 => "Kenya"
    case 3 => "South Africa"
    case 4 => "United Kingdom"
    case 5 => "United States"
    case 6 => "Canada"
    case 7 => "India"
    case 8 => "Singapore"
    case 9 => "Germany"
    case 10 => "Netherlands"
    case _ => "United Arab Emirates"
  }

  lemma OneWordIsShown(row: nat)
    requires row in {0, 1, 2, 6, 7, 8}
    ensures Mobile.Title(Mobile.FirstName(row)) == WebName(row)
  {
  }

  lemma LongNameIsShown(row: nat)
    requires row in {3, 9, 10}
    ensures Mobile.Title(Mobile.FirstName(row)) == WebName(row)
  {
  }

  lemma UnionIsShown(row: nat)
    requires row in {4, 5}
    ensures Mobile.Title(Mobile.FirstName(row)) == WebName(row)
  {
  }

  lemma EmiratesAreShown()
    ensures Mobile.Title(Mobile.FirstName(11)) == WebName(11)
  {
  }

  /** The name the app shows for a country is the web form's. */
  lemma NameIsShown(row: nat)
    requires row < Mobile.ROWS
    ensures Mobile.Title(Mobile.FirstName(row)) == WebName(row)
  {
    if row in {0, 1, 2, 6, 7, 8} {
      OneWordIsShown(row);
    } else if row in {3, 9, 10} {
      LongNameIsShown(row);
    } else if row == 11 {
      EmiratesAreShown();
    } else {
      UnionIsShown(row);
    }
  }

  lemma AfricanNameIsKnown(row: nat)
    requires row < 4
    ensures Web.CountryOf(WebName(row)) == Some(Web.Country(Mobile.Code(row), Mobile.Currency(row)))
  {
  }

  lemma WesternNameIsKnown(row: nat)
    requires 4 <= row < 8
    ensures Web.CountryOf(WebName(row)) == Some(Web.Country(Mobile.Code(row), Mobile.Currency(row)))
  {
  }

  lemma OtherNameIsKnown(row: nat)
    requires 8 <= row < Mobile.ROWS
    ensures Web.CountryOf(WebName(row)) == Some(Web.Country(Mobile.Code(row), Mobile.Currency(row)))
  {
  }

  lemma WebNameIsKnown(row: nat)
    requires row < Mobile.ROWS
    ensures Web.CountryOf(WebName(row)) == Some(Web.Country(Mobile.Code(row), Mobile.Currency(row)))
  {
    hide *;
    if row < 4 {
      AfricanNameIsKnown(row);
    } else if row < 8 {
      WesternNameIsKnown(row);
    } else {
      OtherNameIsKnown(row);
    }
  }

  lemma EveryWebCountryIsARow(name: string)
    ensures Web.CountryOf(name).Some? <==> exists row: nat :: row < Mobile.ROWS && name == WebName(row)
  {
    hide Mobile.Code, Mobile.Currency;
    if name == WebName(0) || name == WebName(1) || name == WebName(2) || name == WebName(3) || name == WebName(4)
       || name == WebName(5) || name == WebName(6) || name == WebName(7) || name == WebName(8) || name == WebName(9)
       || name == WebName(10) || name == WebName(11) {
    }
  }

  /** Both clients know the same twelve countries by the same names, with the same
      codes and currencies. */
  lemma CountriesAgree(name: string)
    requires Web.CountryOf(name).Some?
    ensures var row := Mobile.ResolveCountry(name);
            && row.Some?
            && Web.CountryOf(name).value.code == Mobile.Code(row.value)
            && Web.CountryOf(name).value.currency == Mobile.Currency(row.value)
  {
    EveryWebCountryIsARow(name);
    var row: nat :| row < Mobile.ROWS && name == WebName(row);
    hide *;
    NameIsShown(row);
    WebNameIsKnown(row);
    Mobile.ShownNameResolves(row);
  }

  /** A stage both forms offer is stored alike, and what the web form stores for one
      the app lacks the app shows as another. */
  lemma StagesAgree(name: string)
    ensures Mobile.StageWire(name).Some? ==> Mobile.StageWire(name) == Web.StageWire(name)
    ensures Web.StageWire(name).Some? && Mobile.StageWire(name).None? ==>
              && Mobile.StageLabel(Web.StageWire(name).value).Some?
              && Mobile.StageLabel(Web.StageWire(name).value) != Some(name)
  {
  }

  // ------------------------------------------------------------------------ answers

  /** The same question in the app's form. */
  function Counterpart(f: Web.FormField): Option<Mobile.AppField> {
    match f
    case Company => Some(Mobile.Company)
    case Sector => Some(Mobile.Sector)
    case Location => Some(Mobile.Location)
    case Year => Some(Mobile.Year)
    case Stage => Some(Mobile.Stage)
    case Description => Some(Mobile.Description)
    case BusinessModel => Some(Mobile.BusinessModel)
    case Website => Some(Mobile.Website)
    case Revenue => Some(Mobile.Revenue)
    case Costs => Some(Mobile.Costs)
    case CostOfRevenue => Some(Mobile.CostOfRevenue)
    case Cash => Some(Mobile.Cash)
    case MarketingSpend => Some(Mobile.MarketingSpend)
    case TotalRaised => Some(Mobile.TotalRaised)
    case RaiseTarget => Some(Mobile.RaiseTarget)
    case Customers => Some(Mobile.Customers)
    case Mau => Some(Mobile.ActiveUsers)
    case Arpu => Some(Mobile.Arpu)
    case Churn => Some(Mobile.Churn)
    case Cac => Some(Mobile.Cac)
    case Pilots => Some(Mobile.Pilots)
    case LargestCustomerShare => Some(Mobile.CustomerConcentration)
    case TeamSize => Some(Mobile.TeamSize)
    case Founders => Some(Mobile.Founders)
    case FoundersFullTime => Some(Mobile.FoundersFullTime)
    case MarketSize => Some(Mobile.MarketSize)
    case Competition => Some(Mobile.Competition)
    case GrowthConstraint => Some(Mobile.GrowthConstraint)
    case UseOfFunds => Some(Mobile.UseOfFunds)
    case DeliveryCostTrend => Some(Mobile.DeliveryCostTrend)
    case CapTable => Some(Mobile.CapTable)
    case FounderExperience => Some(Mobile.FounderExperience)
    case KeyPerson => Some(Mobile.KeyPersonDependency)
    case IpOwned => Some(Mobile.IpOwned)
    case ContractsTransferable => Some(Mobile.ContractsTransferable)
    case LegalName => Some(Mobile.LegalName)
    case RegistrationNumber => Some(Mobile.RegistrationNumber)
    case Registrar => Some(Mobile.Registrar)
    case IncorporationYear => Some(Mobile.IncorporationYear)
    case Licences => Some(Mobile.RegulatoryLicences)
    case _ => None
  }

  predicate RowAgrees(k: WireKey) {
    Mobile.AppRow(k).Some? ==>
      Web.Row(k).0 == Mobile.AppRow(k).value.0 && Counterpart(Web.Row(k).1) == Some(Mobile.AppRow(k).value.1)
  }

  lemma NarrativeRowsAgree(i: nat)
    requires i < |Mobile.NARRATIVE_ROWS|
    ensures RowAgrees(Mobile.NARRATIVE_ROWS[i].0)
  {
  }

  lemma CountRowsAgree(i: nat)
    requires i < |Mobile.COUNT_ROWS|
    ensures RowAgrees(Mobile.COUNT_ROWS[i].0)
  {
  }

  lemma EarlyMoneyRowsAgree(i: nat)
    requires i < 4
    ensures RowAgrees(Mobile.MONEY_ROWS[i].0)
  {
  }

  lemma LateMoneyRowsAgree(i: nat)
    requires 4 <= i < |Mobile.MONEY_ROWS|
    ensures RowAgrees(Mobile.MONEY_ROWS[i].0)
  {
  }

  lemma FirstRowsAgree(k: WireKey)
    requires k in Mobile.FIRST
    ensures RowAgrees(k)
  {
  }

  lemma SingleRowsAgree(k: WireKey)
    requires k in Mobile.SINGLE
    ensures RowAgrees(k)
  {
  }

  lemma FlagRowsAgree()
    ensures RowAgrees(IpOwnedKey) && RowAgrees(ContractsTransferableKey)
  {
  }

  /** Each key the app stores is made in the same way from the same question. */
  lemma RowsAgree(k: WireKey)
    requires Mobile.AppRow(k).Some?
    ensures var (kind, f) := Mobile.AppRow(k).value;
            Web.Row(k).0 == kind && Counterpart(Web.Row(k).1) == Some(f)
  {
    assert RowAgrees(k) by {
      hide RowAgrees, Mobile.AppRow, Mobile.NARRATIVE_ROWS, Mobile.COUNT_ROWS, Mobile.MONEY_ROWS, Mobile.FIRST,
        Mobile.SINGLE;
      var row := (k, Mobile.AppRow(k).value.1);
      match Mobile.AppRow(k).value.0 {
        case TextKind =>
          Mobile.WrittenAsText(k);
          if row in Mobile.NARRATIVE_ROWS {
            var i :| 0 <= i < |Mobile.NARRATIVE_ROWS| && Mobile.NARRATIVE_ROWS[i] == row;
            NarrativeRowsAgree(i);
          } else {
            FirstRowsAgree(k);
          }
        case MoneyKind =>
          Mobile.WrittenAsMoney(k);
          var i :| 0 <= i < |Mobile.MONEY_ROWS| && Mobile.MONEY_ROWS[i] == row;
          if i < 4 {
            EarlyMoneyRowsAgree(i);
          } else {
            LateMoneyRowsAgree(i);
          }
        case FlagKind =>
          Mobile.WrittenAsFlag(k);
          FlagRowsAgree();
        case _ =>
          Mobile.WrittenAsNumber(k);
          if row in Mobile.COUNT_ROWS {
            var i :| 0 <= i < |Mobile.COUNT_ROWS| && Mobile.COUNT_ROWS[i] == row;
            CountRowsAgree(i);
          } else {
            SingleRowsAgree(k);
          }
      }
    }
    hide Mobile.AppRow, Web.Row, Counterpart;
  }

  ghost predicate SameAnswers(web: Web.Form, app: Mobile.AppForm) {
    forall f: Web.FormField :: Counterpart(f).Some? ==> web(f) == app.answer(Counterpart(f).value)
  }

  lemma ValuesAgree(kind: Kind, typed: string, row: Option<nat>)
    requires row.Some? ==> row.value < Mobile.ROWS
    ensures Mobile.Encoded(kind, typed, 1, Mobile.CurrencyOf(row)) == Web.Encoded(kind, typed, row.Some?)
  {
    hide N, Round, Scale;
  }

  lemma EntriesAgree(web: Web.Form, app: Mobile.AppForm, k: WireKey)
    requires SameAnswers(web, app) && !app.annual && Mobile.AppRow(k).Some?
    requires Web.CountryOf(web(Web.Location)).Some? <==> Mobile.Country(app).Some?
    ensures Mobile.Entry(app, k) == Web.Entry(web, k)
  {
    hide Mobile.AppRow, Web.Row, Counterpart, Mobile.Encoded, Web.Encoded, Mobile.Country, Web.CountryOf;
    RowsAgree(k);
    var (kind, f) := Mobile.AppRow(k).value;
    ValuesAgree(kind, app.answer(f), Mobile.Country(app));
  }

  lemma BlankCountry(name: string)
    requires Trim(name) == ""
    ensures Web.CountryOf(name).None? && Mobile.ResolveCountry(name).None?
  {
    if Web.CountryOf(name).Some? {
      CountriesAgree(name);
    }
  }

  lemma ColumnsAreCounterparts()
    ensures Counterpart(Web.Company) == Some(Mobile.Company) && Counterpart(Web.Sector) == Some(Mobile.Sector)
    ensures Counterpart(Web.Location) == Some(Mobile.Location) && Counterpart(Web.Stage) == Some(Mobile.Stage)
  {
  }

  /** The same answers, with revenue stated per month, give the same stored profile on
      both clients as far as the app knows it: for a country the web form offers or
      none, and a stage both offer or none. */
  lemma SameAnswersSameProfile(web: Web.Form, app: Mobile.AppForm)
    requires SameAnswers(web, app) && !app.annual
    requires Web.CountryOf(web(Web.Location)).Some? || Trim(web(Web.Location)) == ""
    requires Mobile.StageWire(web(Web.Stage)).Some? || web(Web.Stage) == ""
    ensures Mobile.Known(Web.Wired(web)) == Mobile.Wired(app)
  {
    ColumnsAreCounterparts();
    var location, stage := web(Web.Location), web(Web.Stage);
    if Web.CountryOf(location).Some? {
      CountriesAgree(location);
    } else {
      BlankCountry(location);
    }
    StagesAgree(stage);
    Web.BlankIsUnknown();
    Mobile.BlankIsUnknown();
    var p, q := Mobile.Known(Web.Wired(web)), Mobile.Wired(app);
    assert Mobile.Country(app) == Mobile.ResolveCountry(location);
    hide Mobile.AppRow, Web.Row, Counterpart, Mobile.Encoded, Web.Encoded, Web.CountryOf, Mobile.ResolveCountry,
      Mobile.StageWire, Web.StageWire, Trim, Mobile.Code, Mobile.Currency;
    forall k: WireKey ensures k in p.fields <==> k in q.fields
    ensures k in p.fields ==> p.fields[k] == q.fields[k] {
      if Mobile.AppRow(k).Some? {
        EntriesAgree(web, app, k);
      } else {
        Mobile.UnknownKeyIsUnused(app, k);
      }
    }
    assert p.fields == q.fields;
  }
}
