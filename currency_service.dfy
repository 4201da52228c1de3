/**
 * The currency table: the upsert that stores the rates fetched for one
 * moment (the rates come in as a parameter, the fetch itself is left out),
 * the fixed table of currency names, and the listing of stored currencies.
 */
module CurrencyService {
  import opened Wrappers
  import opened Dates
  import opened Ledger
  import opened Repositories

  /** The fixed table of `getCurrencyName`: the name listed for an ISO 4217 code, if any. */
  function ListedName(code: string): Option<string> {
    match code
    case "USD" => Some("United States Dollar")
    case "AED" => Some("United Arab Emirates Dirham")
    case "AFN" => Some("Afghan Afghani")
    case "ALL" => Some("Albanian Lek")
    case "AMD" => Some("Armenian Dram")
    case "ANG" => Some("Netherlands Antillean Guilder")
    case "AOA" => Some("Angolan Kwanza")
    case "ARS" => Some("Argentine Peso")
    case "AUD" => Some("Australian Dollar")
    case "AWG" => Some("Aruban Florin")
    case "AZN" => Some("Azerbaijani Manat")
    case "BAM" => Some("Bosnia-Herzegovina Convertible Mark")
    case "BBD" => Some("Barbadian Dollar")
    case "BDT" => Some("Bangladeshi Taka")
    case "BGN" => Some("Bulgarian Lev")
    case "BHD" => Some("Bahraini Dinar")
    case "BIF" => Some("Burundian Franc")
    case "BMD" => Some("Bermudian Dollar")
    case "BND" => Some("Brunei Dollar")
    case "BOB" => Some("Bolivian Boliviano")
    case "BRL" => Some("Brazilian Real")
    case "BSD" => Some("Bahamian Dollar")
    case "BTN" => Some("Bhutanese Ngultrum")
    case "BWP" => Some("Botswana Pula")
    case "BYN" => Some("Belarusian Ruble")
    case "BZD" => Some("Belize Dollar")
    case "CAD" => Some("Canadian Dollar")
    case "CDF" => Some("Congolese Franc")
    case "CHF" => Some("Swiss Franc")
    case "CLP" => Some("Chilean Peso")
    case "CNY" => Some("Chinese Yuan")
    case "COP" => Some("Colombian Peso")
    case "CRC" => Some("Costa Rican Col\U{F3}n")
    case "CUP" => Some("Cuban Peso")
    case "CVE" => Some("Cape Verdean Escudo")
    case "CZK" => Some("Czech Koruna")
    case "DJF" => Some("Djiboutian Franc")
    case "DKK" => Some("Danish Krone")
    case "DOP" => Some("Dominican Peso")
    case "DZD" => Some("Algerian Dinar")
    case "EGP" => Some("Egyptian Pound")
    case "ERN" => Some("Eritrean Nakfa")
    case "ETB" => Some("Ethiopian Birr")
    case "EUR" => Some("Euro")
    case "FJD" => Some("Fijian Dollar")
    case "FKP" => Some("Falkland Islands Pound")
    case "FOK" => Some("Faroese Kr\U{F3}na")
    case "GBP" => Some("British Pound")
    case "GEL" => Some("Georgian Lari")
    case "GGP" => Some("Guernsey Pound")
    case "GHS" => Some("Ghanaian Cedi")
    case "GIP" => Some("Gibraltar Pound")
    case "GMD" => Some("Gambian Dalasi")
    case "GNF" => Some("Guinean Franc")
    case "GTQ" => Some("Guatemalan Quetzal")
    case "GYD" => Some("Guyanese Dollar")
    case "HKD" => Some("Hong Kong Dollar")
    case "HNL" => Some("Honduran Lempira")
    case "HRK" => Some("Croatian Kuna")
    case "HTG" => Some("Haitian Gourde")
    case "HUF" => Some("Hungarian Forint")
    case "IDR" => Some("Indonesian Rupiah")
    case "ILS" => Some("Israeli New Shekel")
    case "IMP" => Some("Isle of Man Pound")
    case "INR" => Some("Indian Rupee")
    case "IQD" => Some("Iraqi Dinar")
    case "IRR" => Some("Iranian Rial")
    case "ISK" => Some("Icelandic Kr\U{F3}na")
    case "JEP" => Some("Jersey Pound")
    case "JMD" => Some("Jamaican Dollar")
    case "JOD" => Some("Jordanian Dinar")
    case "JPY" => Some("Japanese Yen")
    case "KES" => Some("Kenyan Shilling")
    case "KGS" => Some("Kyrgyzstani Som")
    case "KHR" => Some("Cambodian Riel")
    case "KID" => Some("Kiribati Dollar")
    case "KMF" => Some("Comorian Franc")
    case "KRW" => Some("South Korean Won")
    case "KWD" => Some("Kuwaiti Dinar")
    case "KYD" => Some("Cayman Islands Dollar")
    case "KZT" => Some("Kazakhstani Tenge")
    case "LAK" => Some("Lao Kip")
    case "LBP" => Some("Lebanese Pound")
    case "LKR" => Some("Sri Lankan Rupee")
    case "LRD" => Some("Liberian Dollar")
    case "LSL" => Some("Lesotho Loti")
    case "LYD" => Some("Libyan Dinar")
    case "MAD" => Some("Moroccan Dirham")
    case "MDL" => Some("Moldovan Leu")
    case "MGA" => Some("Malagasy Ariary")
    case "MKD" => Some("Macedonian Denar")
    case "MMK" => Some("Myanmar Kyat")
    case "MNT" => Some("Mongolian T\U{F6}gr\U{F6}g")
    case "MOP" => Some("Macanese Pataca")
    case "MRU" => Some("Mauritanian Ouguiya")
    case "MUR" => Some("Mauritian Rupee")
    case "MVR" => Some("Maldivian Rufiyaa")
    case "MWK" => Some("Malawian Kwacha")
    case "MXN" => Some("Mexican Peso")
    case "MYR" => Some("Malaysian Ringgit")
    case "MZN" => Some("Mozambican Metical")
    case "NAD" => Some("Namibian Dollar")
    case "NGN" => Some("Nigerian Naira")
    case "NIO" => Some("Nicaraguan C\U{F3}rdoba")
    case "NOK" => Some("Norwegian Krone")
    case "NPR" => Some("Nepalese Rupee")
    case "NZD" => Some("New Zealand Dollar")
    case "OMR" => Some("Omani Rial")
    case "PAB" => Some("Panamanian Balboa")
    case "PEN" => Some("Peruvian Sol")
    case "PGK" => Some("Papua New Guinean Kina")
    case "PHP" => Some("Philippine Peso")
    case "PKR" => Some("Pakistani Rupee")
    case "PLN" => Some("Polish Zloty")
    case "PYG" => Some("Paraguayan Guaran\U{ED}")
    case "QAR" => Some("Qatari Riyal")
    case "RON" => Some("Romanian Leu")
    case "RSD" => Some("Serbian Dinar")
    case "RUB" => Some("Russian Ruble")
    case "RWF" => Some("Rwandan Franc")
    case "SAR" => Some("Saudi Riyal")
    case "SBD" => Some("Solomon Islands Dollar")
    case "SCR" => Some("Seychellois Rupee")
    case "SDG" => Some("Sudanese Pound")
    case "SEK" => Some("Swedish Krona")
    case "SGD" => Some("Singapore Dollar")
    case "SHP" => Some("Saint Helena Pound")
    case "SLE" => Some("Sierra Leonean Leone")
    case "SLL" => Some("Sierra Leonean Leone")
    case "SOS" => Some("Somali Shilling")
    case "SRD" => Some("Surinamese Dollar")
    case "SSP" => Some("South Sudanese Pound")
    case "STN" => Some("S\U{E3}o Tom\U{E9} and Pr\U{ED}ncipe Dobra")
    case "SYP" => Some("Syrian Pound")
    case "SZL" => Some("Swazi Lilangeni")
    case "THB" => Some("Thai Baht")
    case "TJS" => Some("Tajikistani Somoni")
    case "TMT" => Some("Turkmenistani Manat")
    case "TND" => Some("Tunisian Dinar")
    case "TOP" => Some("Tongan Pa\U{2BB}anga")
    case "TRY" => Some("Turkish Lira")
    case "TTD" => Some("Trinidad and Tobago Dollar")
    case "TVD" => Some("Tuvaluan Dollar")
    case "TWD" => Some("New Taiwan Dollar")
    case "TZS" => Some("Tanzanian Shilling")
    case "UAH" => Some("Ukrainian Hryvnia")
    case "UGX" => Some("Ugandan Shilling")
    case "UYU" => Some("Uruguayan Peso")
    case "UZS" => Some("Uzbekistani Som")
    case "VES" => Some("Venezuelan Bol\U{ED}var Soberano")
    case "VND" => Some("Vietnamese Dong")
    case "VUV" => Some("Vanuatu Vatu")
    case "WST" => Some("Samoan T\U{101}l\U{101}")
    case "XAF" => Some("Central African CFA Franc")
    case "XCD" => Some("East Caribbean Dollar")
    case "XDR" => Some("Special Drawing Rights")
    case "XOF" => Some("West African CFA Franc")
    case "XPF" => Some("CFP Franc")
    case "YER" => Some("Yemeni Rial")
    case "ZAR" => Some("South African Rand")
    case "ZMW" => Some("Zambian Kwacha")
    case "ZWL" => Some("Zimbabwean Dollar")
    case _ => None
  }

  /**
   * `getCurrencyName`: the table's name for a listed code, "Unknown Currency"
   * (the default of `getOrDefault`) for any other code.
   */
  function CurrencyName(code: string): (name: string)
    ensures ListedName(code).Some? ==> name == ListedName(code).value
    ensures ListedName(code).None? ==> name == "Unknown Currency"
  {
    match ListedName(code)
    case Some(n) => n
    case None => "Unknown Currency"
  }

  /** An entry of the table: the euro, the base currency of the fetched rates. */
  lemma EuroName()
    ensures CurrencyName("EUR") == "Euro"
  {
  }

  /** A code the table does not list gets the default name. */
  lemma UnlistedCodeName()
    ensures CurrencyName("XYZ") == "Unknown Currency"
  {
  }

  /** The fetched document: its rates by code, if it has a "rates" entry, and its update time. */
  datatype RatesDocument = RatesDocument(rates: Option<seq<(string, real)>>, timeLastUpdated: LocalDateTime)

  /** A rates map has one entry per code. */
  predicate DistinctCodes(rates: seq<(string, real)>) {
    forall i, j :: 0 <= i < j < |rates| ==> rates[i].0 != rates[j].0
  }

  /** No two stored currencies share a code. */
  predicate UniqueCodes(rows: seq<Row<Currency>>) {
    forall i, j :: 0 <= i < j < |rows| ==> rows[i].value.code != rows[j].value.code
  }

  /** `findByCode`: the position of the first row with `code`, if any. */
  function IndexOfCode(rows: seq<Row<Currency>>, code: string): (r: Option<nat>)
    ensures r.Some? ==> r.value < |rows| && rows[r.value].value.code == code
    ensures r.None? <==> forall k :: 0 <= k < |rows| ==> rows[k].value.code != code
  {
    if rows == [] then None
    else if rows[|rows| - 1].value.code == code && IndexOfCode(rows[..|rows| - 1], code).None? then Some(|rows| - 1)
    else IndexOfCode(rows[..|rows| - 1], code)
  }

  /** The stored currencies and the next identifier to assign. */
  datatype Store = Store(rows: seq<Row<Currency>>, nextId: nat)

  /**
   * One pass of the loop body: the row with the code takes the new values
   * in place, or a new row is saved when there is none.
   */
  function Upsert(s: Store, c: Currency): Store {
    match IndexOfCode(s.rows, c.code)
    case Some(k) => Store(s.rows[k := Row(s.rows[k].id, c)], s.nextId)
    case None => Store(s.rows + [Row(s.nextId, c)], s.nextId + 1)
  }

  /** The currency a rate entry is stored as. */
  function CurrencyOf(entry: (string, real), time: LocalDateTime): Currency {
    Currency(entry.0, CurrencyName(entry.0), entry.1, time)
  }

  /** The loop over the rates, in their iteration order. */
  function UpsertAll(s: Store, rates: seq<(string, real)>, time: LocalDateTime): Store {
    if rates == [] then s
    else Upsert(UpsertAll(s, rates[..|rates| - 1], time), CurrencyOf(rates[|rates| - 1], time))
  }

  /**
   * An upsert keeps every existing row's identifier and position, changes
   * only the row with the code, and keeps codes unique.
   */
  lemma UpsertFrame(s: Store, c: Currency)
    ensures var t := Upsert(s, c);
      && |s.rows| <= |t.rows| <= |s.rows| + 1
      && (forall k :: 0 <= k < |s.rows| ==> t.rows[k].id == s.rows[k].id)
      && (forall k :: 0 <= k < |s.rows| && s.rows[k].value.code != c.code ==> t.rows[k] == s.rows[k])
      && (forall k :: |s.rows| <= k < |t.rows| ==> t.rows[k].value == c)
      && (UniqueCodes(s.rows) ==> UniqueCodes(t.rows))
      && (forall k :: 0 <= k < |t.rows| && t.rows[k].value.code == c.code && UniqueCodes(s.rows) ==> t.rows[k].value == c)
  {
    var t := Upsert(s, c);
    if IndexOfCode(s.rows, c.code).None? {
      assert forall k :: 0 <= k < |s.rows| ==> s.rows[k].value.code != c.code;
    }
  }

  /**
   * After the loop, every code of the rates has a row holding its rate,
   * its listed name and the document's time, provided the stored codes
   * were unique to begin with.
   */
  lemma {:induction false} UpsertAllStoresEveryRate(s: Store, rates: seq<(string, real)>, time: LocalDateTime)
    requires UniqueCodes(s.rows) && DistinctCodes(rates)
    ensures var t := UpsertAll(s, rates, time);
      UniqueCodes(t.rows) &&
      forall j :: 0 <= j < |rates| ==>
        IndexOfCode(t.rows, rates[j].0).Some? &&
        t.rows[IndexOfCode(t.rows, rates[j].0).value].value == CurrencyOf(rates[j], time)
  {
    if rates != [] {
      var init, last := rates[..|rates| - 1], rates[|rates| - 1];
      UpsertAllStoresEveryRate(s, init, time);
      var mid := UpsertAll(s, init, time);
      UpsertFrame(mid, CurrencyOf(last, time));
      var t := UpsertAll(s, rates, time);
      forall j | 0 <= j < |rates|
        ensures IndexOfCode(t.rows, rates[j].0).Some? &&
                t.rows[IndexOfCode(t.rows, rates[j].0).value].value == CurrencyOf(rates[j], time)
      {
        if j < |init| {
          assert rates[j] == init[j];
          var k := IndexOfCode(mid.rows, init[j].0).value;
          assert t.rows[k] == mid.rows[k];
        }
      }
    }
  }

  /**
   * The loop deletes nothing and moves nothing: every row keeps its
   * identifier and position, and a row whose code is not among the rates
   * is untouched; rows it adds hold currencies of the rates.
   */
  lemma {:induction false} UpsertAllKeepsOtherRows(s: Store, rates: seq<(string, real)>, time: LocalDateTime)
    ensures var t := UpsertAll(s, rates, time);
      && |s.rows| <= |t.rows| <= |s.rows| + |rates|
      && (forall k :: 0 <= k < |s.rows| ==> t.rows[k].id == s.rows[k].id)
      && (forall k :: 0 <= k < |s.rows| && (forall j :: 0 <= j < |rates| ==> rates[j].0 != s.rows[k].value.code) ==>
            t.rows[k] == s.rows[k])
      && (forall k :: |s.rows| <= k < |t.rows| ==> exists j :: 0 <= j < |rates| && t.rows[k].value == CurrencyOf(rates[j], time))
  {
    if rates != [] {
      var init, last := rates[..|rates| - 1], rates[|rates| - 1];
      UpsertAllKeepsOtherRows(s, init, time);
      var mid := UpsertAll(s, init, time);
      UpsertFrame(mid, CurrencyOf(last, time));
      var t := UpsertAll(s, rates, time);
      forall k | |s.rows| <= k < |t.rows|
        ensures exists j :: 0 <= j < |rates| && t.rows[k].value == CurrencyOf(rates[j], time)
      {
        if k < |mid.rows| && t.rows[k] == mid.rows[k] {
          var j :| 0 <= j < |init| && mid.rows[k].value == CurrencyOf(init[j], time);
          assert rates[j] == init[j];
        } else if k < |mid.rows| {
          assert t.rows[k].value == CurrencyOf(rates[|rates| - 1], time);
        } else {
          assert t.rows[k].value == CurrencyOf(rates[|rates| - 1], time);
        }
      }
      forall k | 0 <= k < |s.rows| && (forall j :: 0 <= j < |rates| ==> rates[j].0 != s.rows[k].value.code)
        ensures t.rows[k] == s.rows[k]
      {
        assert forall j :: 0 <= j < |init| ==> init[j] == rates[j];
      }
    }
  }

  /**
   * The loop body: `findByCode`, set the fields, `save` (an update in place
   * of the row found, or a new row).
   */
  method SaveRate(table: Table<Currency>, c: Currency)
    requires table.Valid()
    modifies table
    ensures table.Valid()
    ensures Store(table.rows, table.nextId) == Upsert(Store(old(table.rows), old(table.nextId)), c)
  {
    var found := IndexOfCode(table.rows, c.code);
    if found.Some? {
      var id := table.rows[found.value].id;
      FindByIdAt(table.rows, found.value);
      table.Update(id, c);
    } else {
      var id := table.Insert(c);
    }
  }

  /**
   * `fetchAndSaveCurrencies`, the fetched document given: nothing changes
   * without a document or without rates; otherwise each rate is upserted
   * in turn, all with the document's time.
   */
  method FetchAndSaveCurrencies(table: Table<Currency>, response: Option<RatesDocument>)
    requires table.Valid()
    modifies table
    ensures table.Valid()
    ensures response.None? || response.value.rates.None? ==>
      table.rows == old(table.rows) && table.nextId == old(table.nextId)
    ensures response.Some? && response.value.rates.Some? ==>
      Store(table.rows, table.nextId) ==
        UpsertAll(Store(old(table.rows), old(table.nextId)), response.value.rates.value, response.value.timeLastUpdated)
  {
    if response.None? || response.value.rates.None? {
      return;
    }
    var rates, time := response.value.rates.value, response.value.timeLastUpdated;
    ghost var s0 := Store(table.rows, table.nextId);
    for i := 0 to |rates|
      invariant table.Valid()
      invariant Store(table.rows, table.nextId) == UpsertAll(s0, rates[..i], time)
    {
      assert rates[..i + 1][..i] == rates[..i];
      var code := rates[i].0;
      var name := CurrencyName(code);
      SaveRate(table, Currency(code, name, rates[i].1, time));
    }
    assert rates[..|rates|] == rates;
  }

  datatype CurrencyResponse = CurrencyResponse(
    id: nat, code: string, name: string, rate: real, lastTimeUpdated: LocalDateTime)

  /** The response for one stored currency: every field copied. */
  function ResponseOf(row: Row<Currency>): CurrencyResponse {
    CurrencyResponse(row.id, row.value.code, row.value.name, row.value.rate, row.value.lastTimeUpdated)
  }

  /** `getCurrencies`: one response per stored currency, in repository order. */
  method GetCurrencies(table: Table<Currency>) returns (r: Response<seq<CurrencyResponse>>)
    ensures r.status == Ok && r.body.Some? && |r.body.value| == |table.rows|
    ensures forall k :: 0 <= k < |table.rows| ==> r.body.value[k] == ResponseOf(table.rows[k])
  {
    var responses: seq<CurrencyResponse> := [];
    for i := 0 to |table.rows|
      invariant |responses| == i
      invariant forall k :: 0 <= k < i ==> responses[k] == ResponseOf(table.rows[k])
    {
      var row := table.rows[i];
      responses := responses + [CurrencyResponse(row.id, row.value.code, row.value.name, row.value.rate, row.value.lastTimeUpdated)];
    }
    return Response(Ok, Some(responses));
  }
}
