/**
 * Card-payment premiums (card_scrapers.py): the constant premium and base
 * tables, the cost of paying one provider by card, and the comparison of
 * bank transfer, debit card and credit card for every provider of a country.
 *
 * The two tables are dictionaries keyed by strings. Their keys are written
 * here as enumerations, and a string key is looked up by naming the
 * enumeration value it spells (None when it spells none, the dictionary's
 * missing key). Every country of `BASE_DATA` has all four providers, so its
 * inner dictionary is a total function of the provider.
 */
module CardPremiums {
  import opened Wrappers
  import Ascii

  /** The keys of `CARD_PREMIUMS` and of every inner dictionary of `BASE_DATA`. */
  datatype Provider = Remitly | Wise | WesternUnion | Intermex

  function ProviderName(p: Provider): string {
    match p
    case Remitly => "Remitly"
    case Wise => "Wise"
    case WesternUnion => "Western Union"
    case Intermex => "Intermex"
  }

  /** The keys of `CARD_PREMIUMS`, in the dictionary's order. */
  const AllProviders: seq<Provider> := [Remitly, Wise, WesternUnion, Intermex]

  function FindProvider(s: string, ps: seq<Provider>): (p: Option<Provider>)
    ensures p.Some? ==> ProviderName(p.value) == s && p.value in ps
    ensures p.None? ==> forall q :: q in ps ==> ProviderName(q) != s
  {
    if |ps| == 0 then None
    else if ProviderName(ps[0]) == s then Some(ps[0])
    else FindProvider(s, ps[1..])
  }

  /** Looking a provider name up among the keys: None is the missing key. */
  function ProviderNamed(s: string): (p: Option<Provider>)
    ensures p.Some? ==> ProviderName(p.value) == s
    ensures p.None? ==> forall q: Provider :: ProviderName(q) != s
  {
    FindProvider(s, AllProviders)
  }

  /** The keys of `BASE_DATA`. */
  datatype Country = BR | MX | CO | PE | CL | AR | VE | BO | SV | DO | GT

  function CountryCode(c: Country): string {
    match c
    case BR => "BR"
    case MX => "MX"
    case CO => "CO"
    case PE => "PE"
    case CL => "CL"
    case AR => "AR"
    case VE => "VE"
    case BO => "BO"
    case SV => "SV"
    case DO => "DO"
    case GT => "GT"
  }

  /** The keys of `BASE_DATA`, in the dictionary's order. */
  const AllCountries: seq<Country> := [BR, MX, CO, PE, CL, AR, VE, BO, SV, DO, GT]

  function FindCountry(s: string, cs: seq<Country>): (c: Option<Country>)
    ensures c.Some? ==> CountryCode(c.value) == s && c.value in cs
    ensures c.None? ==> forall x :: x in cs ==> CountryCode(x) != s
  {
    if |cs| == 0 then None
    else if CountryCode(cs[0]) == s then Some(cs[0])
    else FindCountry(s, cs[1..])
  }

  /** Looking a country code up among the keys: None is the missing key. */
  function CountryNamed(s: string): (c: Option<Country>)
    ensures c.Some? ==> CountryCode(c.value) == s
    ensures c.None? ==> forall x: Country :: CountryCode(x) != s
  {
    FindCountry(s, AllCountries)
  }

  /** `CARD_PREMIUMS[provider][card_type]`, None for a card type other than debit and credit. */
  function CardPremium(p: Provider, cardType: string): (pct: Option<real>)
    ensures pct.Some? <==> cardType == "debit" || cardType == "credit"
  {
    var rates := match p
      case Remitly => (0.015, 0.03)
      case Wise => (0.01, 0.025)
      case WesternUnion => (0.02, 0.035)
      case Intermex => (0.015, 0.03);
    if cardType == "debit" then Some(rates.0)
    else if cardType == "credit" then Some(rates.1)
    else None
  }

  /** One provider's base fee and exchange rate for a country. */
  datatype Base = Base(fee: real, rate: real)

  /** `BASE_DATA`: one row per country in key order, one column per provider in key order. */
  const BaseTable: seq<seq<Base>> := [
    /* BR */ [Base(3.99, 5.3833), Base(37.33, 5.3661), Base(22.44, 5.2051), Base(13.74, 5.2856)],
    /* MX */ [Base(3.99, 17.4608), Base(33.47, 18.2792), Base(22.33, 17.7308), Base(12.49, 18.0050)],
    /* CO */ [Base(3.99, 3649.11), Base(36.84, 3712.71), Base(22.19, 3601.16), Base(13.43, 3656.84)],
    /* PE */ [Base(3.99, 3.75), Base(35.20, 3.82), Base(21.50, 3.71), Base(12.80, 3.77)],
    /* CL */ [Base(3.99, 920.50), Base(38.15, 945.30), Base(23.40, 915.20), Base(14.20, 928.70)],
    /* AR */ [Base(3.99, 1025.40), Base(39.80, 1048.60), Base(24.30, 1018.30), Base(15.10, 1032.50)],
    /* VE */ [Base(3.99, 36.50), Base(36.20, 37.85), Base(22.80, 36.12), Base(13.50, 36.95)],
    /* BO */ [Base(3.99, 6.91), Base(34.80, 7.02), Base(21.20, 6.88), Base(12.60, 6.95)],
    /* SV */ [Base(3.99, 1.00), Base(38.66, 18.43), Base(22.94, 17.88), Base(14.38, 18.15)],
    /* DO */ [Base(3.99, 58.50), Base(36.90, 60.20), Base(22.60, 58.10), Base(13.80, 59.30)],
    /* GT */ [Base(3.99, 7.75), Base(35.60, 7.88), Base(21.80, 7.72), Base(13.20, 7.80)]
  ]

  /** The position of a country among the keys of `BASE_DATA`. */
  function CountryIndex(c: Country): (i: nat)
    ensures i < 11
  {
    match c
    case BR => 0 case MX => 1 case CO => 2 case PE => 3 case CL => 4 case AR => 5
    case VE => 6 case BO => 7 case SV => 8 case DO => 9 case GT => 10
  }

  /** The position of a provider among the keys of every inner dictionary of `BASE_DATA`. */
  function ProviderIndex(p: Provider): (j: nat)
    ensures j < 4
  {
    match p
    case Remitly => 0 case Wise => 1 case WesternUnion => 2 case Intermex => 3
  }

  /** `BASE_DATA[country][provider]`. */
  function BaseOf(c: Country, p: Provider): Base {
    BaseTable[CountryIndex(c)][ProviderIndex(p)]
  }

  /** The provider order of `get_all_card_premiums`. */
  const Providers: seq<string> := ["Remitly", "Wise", "Western Union", "Intermex"]

  /** Every base fee is positive, so the `vs_bank` percentages never divide by zero. */
  lemma BaseFeesPositive(c: Country, p: Provider)
    ensures BaseOf(c, p).fee > 0.0
  {
  }

  /** For every provider a credit card costs a larger share than a debit card, and neither is free. */
  lemma CreditPremiumAboveDebit(p: Provider)
    ensures 0.0 < CardPremium(p, "debit").value < CardPremium(p, "credit").value
  {
  }

  /** The dictionary `calculate_card_cost` returns (before rounding). */
  datatype CardCost = CardCost(
    provider: string,
    country: string,
    amount: int,
    cardType: string,
    baseFee: real,
    premiumPct: real,
    cardFee: real,
    totalCost: real,
    exchangeRate: real,
    recipientGets: real)

  /**
   * The cost of one transfer from its looked-up base fee and rate and the
   * card's premium as a fraction: the card fee is the premium's share of the
   * amount, on top of the base fee, the premium is reported in percent, and
   * the recipient gets the amount at the base rate.
   */
  function CostOf(provider: string, country: string, amount: int, cardType: string, base: Base, premium: real): (r: CardCost)
    ensures r.provider == provider && r.country == country && r.cardType == cardType && r.amount == amount
    ensures r.baseFee == base.fee && r.exchangeRate == base.rate
    ensures r.cardFee == amount as real * premium && r.premiumPct == premium * 100.0
    ensures r.totalCost == r.baseFee + r.cardFee
    ensures r.recipientGets == amount as real * r.exchangeRate
  {
    var cardFee := amount as real * premium;
    CardCost(provider, country, amount, cardType, base.fee, premium * 100.0, cardFee,
             base.fee + cardFee, base.rate, amount as real * base.rate)
  }

  /**
   * `calculate_card_cost`: None for an unknown country, a provider the
   * country lacks, or a card type other than debit and credit (the KeyError
   * the handler turns into None).
   */
  function CalculateCardCost(provider: string, country: string, amount: int, cardType: string): (r: Option<CardCost>)
    ensures r.Some? <==>
      CountryNamed(country).Some? && ProviderNamed(provider).Some? && (cardType == "debit" || cardType == "credit")
    ensures r.Some? ==>
      r.value == CostOf(provider, country, amount, cardType,
                        BaseOf(CountryNamed(country).value, ProviderNamed(provider).value),
                        CardPremium(ProviderNamed(provider).value, cardType).value)
  {
    var c := CountryNamed(country);
    var p := ProviderNamed(provider);
    if c.None? || p.None? then None
    else
      var pct := CardPremium(p.value, cardType);
      if pct.None? then None
      else Some(CostOf(provider, country, amount, cardType, BaseOf(c.value, p.value), pct.value))
  }

  /** The recipient's amount does not depend on the card type. */
  lemma RecipientGetsIgnoresCard(provider: string, country: string, amount: int)
    requires CountryNamed(country).Some? && ProviderNamed(provider).Some?
    ensures CalculateCardCost(provider, country, amount, "debit").Some?
    ensures CalculateCardCost(provider, country, amount, "credit").Some?
    ensures CalculateCardCost(provider, country, amount, "debit").value.recipientGets ==
            CalculateCardCost(provider, country, amount, "credit").value.recipientGets
  {
  }

  /**
   * For a non-negative amount, paying by credit card costs at least as much
   * as by debit card, which costs at least the bank-transfer base fee; for a
   * positive amount both orders are strict.
   */
  lemma CardCostOrdering(provider: string, country: string, amount: int)
    requires CountryNamed(country).Some? && ProviderNamed(provider).Some?
    requires amount >= 0
    ensures var debit := CalculateCardCost(provider, country, amount, "debit");
      var credit := CalculateCardCost(provider, country, amount, "credit");
      && debit.Some? && credit.Some?
      && debit.value.baseFee <= debit.value.totalCost <= credit.value.totalCost
      && (amount > 0 ==> debit.value.baseFee < debit.value.totalCost < credit.value.totalCost)
  {
    var p := ProviderNamed(provider).value;
    CreditPremiumAboveDebit(p);
    var base := BaseOf(CountryNamed(country).value, p);
    PremiumOrdering(provider, country, amount, base, CardPremium(p, "debit").value, CardPremium(p, "credit").value);
  }

  /** A larger premium costs more on the same non-negative amount, and any positive premium costs more than none. */
  lemma PremiumOrdering(provider: string, country: string, amount: int, base: Base, lower: real, higher: real)
    requires amount >= 0 && 0.0 < lower < higher
    ensures var debit := CostOf(provider, country, amount, "debit", base, lower);
      var credit := CostOf(provider, country, amount, "credit", base, higher);
      && debit.baseFee <= debit.totalCost <= credit.totalCost
      && (amount > 0 ==> debit.baseFee < debit.totalCost < credit.totalCost)
  {
    var a := amount as real;
    assert a * lower <= a * higher by {
      assert a * (higher - lower) >= 0.0;
    }
    if amount > 0 {
      assert 0.0 < a * lower < a * higher by {
        assert a * (higher - lower) > 0.0;
      }
    }
  }

  /** One card option of a provider entry. */
  datatype CardOption = CardOption(totalCost: real, premiumPct: real, premiumAmount: real, vsBankPct: real)

  /** One entry of the `providers` list. */
  datatype ProviderPremiums = ProviderPremiums(name: string, bankTotal: real, bankMethod: string, debit: CardOption, credit: CardOption)

  /** The dictionary `get_all_card_premiums` returns. */
  datatype PremiumReport =
    | Unsupported(error: string)
    | Report(country: string, amount: int, providers: seq<ProviderPremiums>)

  /** `(card_total - bank) / bank * 100` (shown with a leading "+"). */
  function VsBank(cardTotal: real, bank: real): (pct: real)
    requires bank > 0.0
    ensures pct >= 0.0 <==> cardTotal >= bank
  {
    var pct := (cardTotal - bank) / bank * 100.0;
    assert pct * bank == (cardTotal - bank) * 100.0;
    pct
  }

  /** A card option from a computed card cost, compared with the bank-transfer cost. */
  function OptionOf(c: CardCost, bank: real): CardOption
    requires bank > 0.0
  {
    CardOption(c.totalCost, c.premiumPct, c.cardFee, VsBank(c.totalCost, bank))
  }

  /** One pass of the provider loop for a supported country: the entry, or None when the provider is skipped. */
  function ProviderEntry(country: string, amount: int, name: string): (e: Option<ProviderPremiums>)
    requires CountryNamed(country).Some?
    ensures e.Some? <==> ProviderNamed(name).Some?
  {
    if ProviderNamed(name).None? then None
    else
      var debit := CalculateCardCost(name, country, amount, "debit");
      var credit := CalculateCardCost(name, country, amount, "credit");
      if debit.Some? && credit.Some? then
        BaseFeesPositive(CountryNamed(country).value, ProviderNamed(name).value);
        var bank := debit.value.baseFee;
        Some(ProviderPremiums(name, bank, "ACH/Wire", OptionOf(debit.value, bank), OptionOf(credit.value, bank)))
      else None
  }

  /**
   * A listed provider's bank-transfer cost is its positive base fee and, for
   * a non-negative amount, both card options cost at least as much (so
   * neither `vs_bank` is negative) and credit costs at least as much as debit.
   */
  lemma ProviderEntryOrdered(country: string, amount: int, name: string)
    requires CountryNamed(country).Some? && ProviderNamed(name).Some?
    ensures var e := ProviderEntry(country, amount, name).value;
      && e.name == name && e.bankMethod == "ACH/Wire"
      && e.bankTotal == BaseOf(CountryNamed(country).value, ProviderNamed(name).value).fee > 0.0
      && (amount >= 0 ==>
            && e.bankTotal <= e.debit.totalCost <= e.credit.totalCost
            && 0.0 <= e.debit.vsBankPct && 0.0 <= e.credit.vsBankPct)
  {
    BaseFeesPositive(CountryNamed(country).value, ProviderNamed(name).value);
    if amount >= 0 {
      CardCostOrdering(name, country, amount);
    }
  }

  /** The entries that are present, in order. */
  function Present<T>(s: seq<Option<T>>): (r: seq<T>)
    ensures |r| <= |s|
  {
    if |s| == 0 then []
    else Present(s[..|s| - 1]) + (if s[|s| - 1].Some? then [s[|s| - 1].value] else [])
  }

  /** When no entry is missing, every entry is kept, in its place. */
  lemma {:induction false} PresentAllSome<T>(s: seq<Option<T>>)
    requires forall i :: 0 <= i < |s| ==> s[i].Some?
    ensures |Present(s)| == |s|
    ensures forall i :: 0 <= i < |s| ==> Present(s)[i] == s[i].value
  {
    if |s| > 0 {
      PresentAllSome(s[..|s| - 1]);
    }
  }

  /** What each pass of the provider loop yields, one slot per name. */
  function Passes(country: string, amount: int, names: seq<string>): (r: seq<Option<ProviderPremiums>>)
    requires CountryNamed(country).Some?
    ensures |r| == |names|
    ensures forall i :: 0 <= i < |names| ==> r[i] == ProviderEntry(country, amount, names[i])
  {
    seq(|names|, i requires 0 <= i < |names| => ProviderEntry(country, amount, names[i]))
  }

  /** `get_all_card_premiums`. */
  function AllCardPremiums(country: string, amount: int): (r: PremiumReport)
    ensures r.Unsupported? <==> CountryNamed(Ascii.Upper(country)).None?
    ensures r.Unsupported? ==> r.error == "Country " + country + " not supported"
    ensures r.Report? ==> r.country == Ascii.Upper(country) && r.amount == amount
  {
    var key := Ascii.Upper(country);
    var c := CountryNamed(key);
    if c.None? then Unsupported("Country " + country + " not supported")
    else Report(key, amount, Present(Passes(key, amount, Providers)))
  }

  /**
   * A supported country, whatever the case it is written in, lists all four
   * providers once each, in the fixed order Remitly, Wise, Western Union,
   * Intermex.
   */
  lemma ReportListsAllProvidersInOrder(country: string, amount: int)
    requires CountryNamed(Ascii.Upper(country)).Some?
    ensures AllCardPremiums(country, amount).Report?
    ensures |AllCardPremiums(country, amount).providers| == |Providers|
    ensures forall i :: 0 <= i < |Providers| ==>
      ProviderEntry(Ascii.Upper(country), amount, Providers[i]) == Some(AllCardPremiums(country, amount).providers[i])
    ensures forall i :: 0 <= i < |Providers| ==> AllCardPremiums(country, amount).providers[i].name == Providers[i]
  {
    var key := Ascii.Upper(country);
    ProvidersAreKeys();
    var passes := Passes(key, amount, Providers);
    PresentAllSome(passes);
    forall i | 0 <= i < |Providers|
      ensures AllCardPremiums(country, amount).providers[i].name == Providers[i]
    {
      ProviderEntryOrdered(key, amount, Providers[i]);
    }
  }

  /** Every name the loop visits is a key of every inner dictionary of `BASE_DATA`. */
  lemma ProvidersAreKeys()
    ensures forall i :: 0 <= i < |Providers| ==> ProviderNamed(Providers[i]).Some?
  {
    assert ProviderName(Remitly) == Providers[0];
    assert ProviderName(Wise) == Providers[1];
    assert ProviderName(WesternUnion) == Providers[2];
    assert ProviderName(Intermex) == Providers[3];
  }

  /** `get_all_card_premiums`, with its loop over the providers. */
  method GetAllCardPremiums(country: string, amount: int) returns (r: PremiumReport)
    ensures r == AllCardPremiums(country, amount)
  {
    var key := Ascii.Upper(country);
    var c := CountryNamed(key);
    if c.None? {
      return Unsupported("Country " + country + " not supported");
    }
    ghost var passes := Passes(key, amount, Providers);
    var entries: seq<ProviderPremiums> := [];
    for i := 0 to |Providers|
      invariant entries == Present(passes[..i])
    {
      assert passes[..i + 1][..i] == passes[..i];
      var entry := ProviderPass(key, amount, Providers[i]);
      if entry.Some? {
        entries := entries + [entry.value];
      }
    }
    assert passes[..|Providers|] == passes;
    r := Report(key, amount, entries);
  }

  /** The body of the provider loop: the provider's entry, or None when it is skipped. */
  method ProviderPass(key: string, amount: int, name: string) returns (entry: Option<ProviderPremiums>)
    requires CountryNamed(key).Some?
    ensures entry == ProviderEntry(key, amount, name)
  {
    if ProviderNamed(name).None? {
      return None;
    }
    var debit := CalculateCardCost(name, key, amount, "debit");
    var credit := CalculateCardCost(name, key, amount, "credit");
    if debit.Some? && credit.Some? {
      BaseFeesPositive(CountryNamed(key).value, ProviderNamed(name).value);
      var bank := debit.value.baseFee;
      return Some(ProviderPremiums(name, bank, "ACH/Wire", OptionOf(debit.value, bank), OptionOf(credit.value, bank)));
    }
    return None;
  }
}
