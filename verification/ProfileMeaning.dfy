/** What both clients' payloads say of what the founder typed, in real numbers, and
    that the same answers give the same stored profile on either. */
module ProfileMeaning {
  import opened Wrappers
  import opened Text
  import opened Decimals
  import opened DecimalValues
  import opened ProfileWire
  import Web = WebProfile
  import Mobile = MobileProfile

  /** `v` is the integer nearest to `x / months`, a half going up. */
  ghost predicate Nearest(v: Value, x: real, months: real) {
    exists r: int :: v == Num(OfInt(r)) && months * (r as real - 0.5) <= x < months * (r as real + 0.5)
  }

  /** What a stored value says of the answer typed: text without blanks around it, yes
      or no, the number typed, the nearest whole number, or the nearest hundredth of
      an amount that covers so many months. */
  ghost predicate Says(kind: Kind, typed: string, months: real, inCountry: bool, v: Option<Value>) {
    match kind
    case TextKind => v == if Trim(typed) == "" then None else Some(Text(Trim(typed)))
    case FlagKind => v == if typed == "" then None else Some(Flag(typed == "Yes"))
    case NumberKind => v == if N(typed).None? then None else Some(Num(N(typed).value))
    case WholeKind =>
      if N(typed).None? then v.None? else v.Some? && Nearest(v.value, AsReal(N(typed).value), 1.0)
    case MoneyKind =>
      if !inCountry || N(typed).None? then v.None?
      else v.Some? && Nearest(v.value, 100.0 * AsReal(N(typed).value), months)
  }

  lemma RoundIsNearestTo(d: Number)
    ensures Nearest(Num(Round(d)), AsReal(d), 1.0)
  {
    var r := RoundedValue(d);
  }

  lemma Between(low: real, high: real, n: real, x: real)
    requires n > 0.0 && low <= x / n < high
    ensures n * low <= x < n * high
  {
    QuotientTimes(x, n);
    CancelFactor(x / n, low, n);
    CancelFactor(x / n, high, n);
  }

  lemma QuotientIsNearestTo(d: Number, months: nat)
    requires months > 0
    ensures Nearest(Num(RoundedQuotient(d, months)), AsReal(d), months as real)
  {
    hide RoundedQuotient, AsReal, OfInt;
    var r := RoundedQuotientValue(d, months);
    Between(r as real - 0.5, r as real + 0.5, months as real, AsReal(d));
    assert Num(RoundedQuotient(d, months)) == Num(OfInt(r));
  }

  // ------------------------------------------------------------------ the web form

  lemma WebValueSays(kind: Kind, typed: string, inCountry: bool)
    ensures Says(kind, typed, 1.0, inCountry, Web.Encoded(kind, typed, inCountry))
  {
    hide N, Round, Nearest, AsReal, Scale;
    if N(typed).Some? {
      var d := N(typed).value;
      RoundIsNearestTo(d);
      RoundIsNearestTo(Scale(d, 2));
      ScaleByTwo(d);
    }
  }

  /** Every field of the web payload says what was typed; all amounts are monthly or
      plain, in hundredths, and there only in a known country. */
  lemma WebSays(form: Web.Form, k: WireKey)
    ensures var (kind, f) := Web.Row(k);
            Says(kind, form(f), 1.0, Web.CountryOf(form(Web.Location)).Some?, Stored(Web.Wired(form), k))
  {
    hide Web.Row, Web.CountryOf, Web.Encoded, Says;
    var (kind, f) := Web.Row(k);
    WebValueSays(kind, form(f), Web.CountryOf(form(Web.Location)).Some?);
    assert Stored(Web.Wired(form), k) == Web.Entry(form, k);
  }

  // ------------------------------------------------------------------- the app form

  lemma HundredthsEverywhere(row: nat, d: Number)
    requires row < Mobile.ROWS
    ensures Mobile.Minor(d, Mobile.Currency(row)) == Scale(d, 2)
    ensures Mobile.Major(d, Mobile.Currency(row)) == Scale(d, -2) == Mobile.Major(d, "USD")
  {
  }

  lemma AppAmountSays(typed: string, months: nat, row: Option<nat>)
    requires months > 0 && (row.Some? ==> row.value < Mobile.ROWS)
    ensures Says(MoneyKind, typed, months as real, row.Some?,
                 Mobile.Encoded(MoneyKind, typed, months, Mobile.CurrencyOf(row)))
  {
    hide N, RoundedQuotient, Nearest, AsReal, Scale, Mobile.Currency, Mobile.Minor;
    if N(typed).Some? && row.Some? {
      var d := N(typed).value;
      HundredthsEverywhere(row.value, d);
      QuotientIsNearestTo(Scale(d, 2), months);
      ScaleByTwo(d);
    }
  }

  lemma AppValueSays(kind: Kind, typed: string, months: nat, row: Option<nat>)
    requires months > 0 && (row.Some? ==> row.value < Mobile.ROWS)
    ensures Says(kind, typed, months as real, row.Some?,
                 Mobile.Encoded(kind, typed, months, Mobile.CurrencyOf(row)))
  {
    hide N, Round, RoundedQuotient, Nearest, AsReal, Mobile.Minor, Mobile.CurrencyOf;
    if kind == MoneyKind {
      AppAmountSays(typed, months, row);
    } else if N(typed).Some? {
      RoundIsNearestTo(N(typed).value);
    }
  }

  /** Every field of the app's payload says what was typed; revenue stated per year is
      stored per month, and nothing else is divided. */
  lemma AppSays(form: Mobile.AppForm, k: WireKey)
    requires Mobile.AppRow(k).Some?
    ensures var (kind, f) := Mobile.AppRow(k).value;
            var months := if k == MonthlyRevenueMinorKey && form.annual then 12.0 else 1.0;
            Says(kind, form.answer(f), months, Mobile.Country(form).Some?, Stored(Mobile.Wired(form), k))
  {
    hide Mobile.AppRow, Mobile.Country, Mobile.Encoded, Mobile.CurrencyOf, Says;
    var (kind, f) := Mobile.AppRow(k).value;
    AppValueSays(kind, form.answer(f), Mobile.Per(form, k), Mobile.Country(form));
    assert Stored(Mobile.Wired(form), k) == Mobile.Entry(form, k);
  }

  lemma RevenueRow()
    ensures Mobile.AppRow(MonthlyRevenueMinorKey) == Some((MoneyKind, Mobile.Revenue))
  {
  }

  /** Annual revenue is stored as a month's: with `d` typed and `v` hundredths stored,
      `-6 <= 100 * d - 12 * v < 6`; monthly revenue as it is, `-1/2 <= 100 * d - v < 1/2`. */
  lemma RevenueIsMonthly(form: Mobile.AppForm)
    requires Mobile.Country(form).Some? && N(form.answer(Mobile.Revenue)).Some?
    ensures var d := AsReal(N(form.answer(Mobile.Revenue)).value);
            MonthlyRevenueMinorKey in Mobile.Wired(form).fields
            && exists v: int ::
                 && Mobile.Wired(form).fields[MonthlyRevenueMinorKey] == Num(OfInt(v))
                 && if form.annual then -6.0 <= 100.0 * d - 12.0 * v as real < 6.0
                    else -0.5 <= 100.0 * d - v as real < 0.5
  {
    hide Mobile.AppRow, Mobile.Country, N, AsReal, Mobile.Wired;
    RevenueRow();
    AppSays(form, MonthlyRevenueMinorKey);
  }

  /** How revenue is stated changes nothing else in the payload. */
  lemma OnlyRevenueDependsOnTheYear(answer: Mobile.AppField -> string)
    ensures var monthly := Mobile.Wired(Mobile.AppForm(answer, false));
            var annual := Mobile.Wired(Mobile.AppForm(answer, true));
            && monthly.(fields := monthly.fields - {MonthlyRevenueMinorKey})
                 == annual.(fields := annual.fields - {MonthlyRevenueMinorKey})
            && (MonthlyRevenueMinorKey in monthly.fields <==> MonthlyRevenueMinorKey in annual.fields)
  {
    hide Mobile.AppRow, Mobile.ResolveCountry, N, Trim, Mobile.StageWire, RoundedQuotient, Mobile.Minor, Round;
    var a, b := Mobile.AppForm(answer, false), Mobile.AppForm(answer, true);
    RevenueRow();
    forall k: WireKey | k != MonthlyRevenueMinorKey ensures Mobile.Entry(a, k) == Mobile.Entry(b, k) {
    }
    var p, q := Mobile.Wired(a), Mobile.Wired(b);
    assert forall k: WireKey :: k in p.fields <==> Mobile.Entry(a, k).Some?;
    assert forall k: WireKey :: k in q.fields <==> Mobile.Entry(b, k).Some?;
    assert p.fields - {MonthlyRevenueMinorKey} == q.fields - {MonthlyRevenueMinorKey};
  }

  /** Currencies without hundredths are stored in whole units, nearest to what was typed. */
  lemma WholeUnitsSay(typed: string, currency: string)
    requires currency in {"JPY", "KRW", "VND", "CLP", "ISK", "XAF", "XOF", "UGX", "RWF"}
    ensures var v := Mobile.Encoded(MoneyKind, typed, 1, Some(currency));
            if N(typed).None? then v.None? else v.Some? && Nearest(v.value, AsReal(N(typed).value), 1.0)
  {
    hide N, Round, Nearest, AsReal;
    if N(typed).Some? {
      RoundIsNearestTo(N(typed).value);
    }
  }

  // ----------------------------------------------------------------- amounts shown

  lemma ShownAmount(d: Number)
    ensures N(Print(Scale(d, -2))) == Some(Scale(d, -2)) && 100.0 * AsReal(Scale(d, -2)) == AsReal(d)
  {
    NumberReadsBack(Scale(d, -2));
    ScaleBack(d);
  }

  /** A number or a flag found under a text key is shown by the web form as its text, and
      by the app not at all. */
  lemma StrayValuesShown(p: Profile, k: WireKey, v: Value)
    requires Web.Row(k).0 == TextKind && Stored(p, k) == Some(v)
    ensures v.Num? ==> N(Web.Answer(p, Web.Row(k).1)) == Some(v.num)
    ensures v.Flag? ==> Web.Answer(p, Web.Row(k).1) == if v.flag then "true" else "false"
    ensures !v.Text? && Mobile.AppRow(k).Some? && Mobile.AppRow(k).value.0 == TextKind ==>
              Mobile.Answer(p, Mobile.AppRow(k).value.1) == ""
  {
    hide Web.Row, Web.ShownRow, Mobile.AppRow, Mobile.ShownRow, N, Print;
    Web.TablesMatch(k);
    if v.Num? {
      NumberReadsBack(v.num);
    }
    if Mobile.AppRow(k).Some? {
      Mobile.TablesMatch(k);
    }
  }

  /** Both forms show a stored amount as a hundredth of it. */
  lemma AmountsAreShownInFull(p: Profile, k: WireKey, d: Number)
    requires Web.Row(k).0 == MoneyKind && Stored(p, k) == Some(Num(d))
    ensures var shown := N(Web.Answer(p, Web.Row(k).1));
            shown.Some? && 100.0 * AsReal(shown.value) == AsReal(d)
    ensures Mobile.AppRow(k).Some? && Mobile.AppRow(k).value.0 == MoneyKind
            && (p.currency.Some? ==>
                  exists row: nat :: row < Mobile.ROWS && p.currency.value == Mobile.Currency(row)) ==>
              var shown := N(Mobile.Answer(p, Mobile.AppRow(k).value.1));
              shown.Some? && 100.0 * AsReal(shown.value) == AsReal(d)
  {
    hide Web.Row, Web.ShownRow, Mobile.AppRow, Mobile.ShownRow, N, Print, Scale, AsReal, Mobile.Currency, Mobile.Major;
    ShownAmount(d);
    Web.TablesMatch(k);
    if Mobile.AppRow(k).Some? && Mobile.AppRow(k).value.0 == MoneyKind {
      Mobile.TablesMatch(k);
      Mobile.TrendIsStored();
      if p.currency.Some? {
        if row: nat :| row < Mobile.ROWS && p.currency.value == Mobile.Currency(row) {
          HundredthsEverywhere(row, d);
        }
      } else {
        HundredthsEverywhere(0, d);
      }
    }
  }
}
