/** ISO 4217 currencies: a closed set of three-letter codes and, for each,
    the country, currency name and numeric code recorded for it. */
module Currency {
  import opened Wrappers
  import Text

  const CurrencyCodeLength: nat := 3

  /** A currency as stored by the plan. */
  datatype CurrencyModel = CurrencyModel(country: string, currency: string, code: string, number: string) {
    function Country(): string {
      country
    }

    function Currency(): string {
      currency
    }

    function Code(): string {
      code
    }

    function Number(): string {
      number
    }
  }

  // ---------------------------------------------------------------------
  // The record table of `getCurrencyInfo`
  // ---------------------------------------------------------------------

  /** The table, keyed by code: `None` for a code it does not hold. Each
      record carries its own key as its code. */
  function CurrencyData(code: string): (r: Option<CurrencyModel>)
    ensures r.Some? ==> r.value.Code() == code
  {
    if |code| != CurrencyCodeLength then None
    else
      var a, b, c := code[0], code[1], code[2];
      assert code == [a, b, c];
      if Rows1(a, b, c).Some? then Rows1(a, b, c)
      else if Rows2(a, b, c).Some? then Rows2(a, b, c)
      else if Rows3(a, b, c).Some? then Rows3(a, b, c)
      else if Rows4(a, b, c).Some? then Rows4(a, b, c)
      else if Rows5(a, b, c).Some? then Rows5(a, b, c)
      else if Rows6(a, b, c).Some? then Rows6(a, b, c)
      else None
  }

  // The rows of the table in their order of declaration, a block at a time.

  function Rows1(a: char, b: char, c: char): (r: Option<CurrencyModel>)
    ensures r.Some? ==> r.value.Code() == [a, b, c]
  {
    if false then None
    else if a == 'A' && b == 'F' && c == 'N' then Some(CurrencyModel("AFGHANISTAN", "Afghani", "AFN", "971"))
    else if a == 'E' && b == 'U' && c == 'R' then Some(CurrencyModel("\U{C5}LAND ISLANDS", "Euro", "EUR", "978"))
    else if a == 'A' && b == 'L' && c == 'L' then Some(CurrencyModel("ALBANIA", "Lek", "ALL", "008"))
    else if a == 'D' && b == 'Z' && c == 'D' then Some(CurrencyModel("ALGERIA", "Algerian Dinar", "DZD", "012"))
    else if a == 'U' && b == 'S' && c == 'D' then Some(CurrencyModel("AMERICAN SAMOA", "US Dollar", "USD", "840"))
    else if a == 'A' && b == 'O' && c == 'A' then Some(CurrencyModel("ANGOLA", "Kwanza", "AOA", "973"))
    else if a == 'X' && b == 'C' && c == 'D' then Some(CurrencyModel("ANGUILLA", "East Caribbean Dollar", "XCD", "951"))
    else if a == 'A' && b == 'R' && c == 'S' then Some(CurrencyModel("ARGENTINA", "Argentine Peso", "ARS", "032"))
    else if a == 'A' && b == 'M' && c == 'D' then Some(CurrencyModel("ARMENIA", "Armenian Dram", "AMD", "051"))
    else if a == 'A' && b == 'W' && c == 'G' then Some(CurrencyModel("ARUBA", "Aruban Florin", "AWG", "533"))
    else if a == 'A' && b == 'U' && c == 'D' then Some(CurrencyModel("AUSTRALIA", "Australian Dollar", "AUD", "036"))
    else if a == 'A' && b == 'Z' && c == 'N' then Some(CurrencyModel("AZERBAIJAN", "Azerbaijanian Manat", "AZN", "944"))
    else if a == 'B' && b == 'S' && c == 'D' then Some(CurrencyModel("BAHAMAS (THE)", "Bahamian Dollar", "BSD", "044"))
    else if a == 'B' && b == 'H' && c == 'D' then Some(CurrencyModel("BAHRAIN", "Bahraini Dinar", "BHD", "048"))
    else if a == 'B' && b == 'D' && c == 'T' then Some(CurrencyModel("BANGLADESH", "Taka", "BDT", "050"))
    else if a == 'B' && b == 'B' && c == 'D' then Some(CurrencyModel("BARBADOS", "Barbados Dollar", "BBD", "052"))
    else if a == 'B' && b == 'Y' && c == 'N' then Some(CurrencyModel("BELARUS", "Belarussian Ruble", "BYN", "933"))
    else if a == 'B' && b == 'Z' && c == 'D' then Some(CurrencyModel("BELIZE", "Belize Dollar", "BZD", "084"))
    else if a == 'X' && b == 'O' && c == 'F' then Some(CurrencyModel("BENIN", "CFA Franc BCEAO", "XOF", "952"))
    else if a == 'B' && b == 'M' && c == 'D' then Some(CurrencyModel("BERMUDA", "Bermudian Dollar", "BMD", "060"))
    else if a == 'B' && b == 'T' && c == 'N' then Some(CurrencyModel("BHUTAN", "Ngultrum", "BTN", "064"))
    else if a == 'I' && b == 'N' && c == 'R' then Some(CurrencyModel("BHUTAN", "Indian Rupee", "INR", "356"))
    else if a == 'B' && b == 'O' && c == 'B' then Some(CurrencyModel("BOLIVIA (PLURINATIONAL STATE OF)", "Boliviano", "BOB", "068"))
    else if a == 'B' && b == 'O' && c == 'V' then Some(CurrencyModel("BOLIVIA (PLURINATIONAL STATE OF)", "Mvdol", "BOV", "984"))
    else if a == 'B' && b == 'A' && c == 'M' then Some(CurrencyModel("BOSNIA AND HERZEGOVINA", "Convertible Mark", "BAM", "977"))
    else if a == 'B' && b == 'W' && c == 'P' then Some(CurrencyModel("BOTSWANA", "Pula", "BWP", "072"))
    else if a == 'N' && b == 'O' && c == 'K' then Some(CurrencyModel("BOUVET ISLAND", "Norwegian Krone", "NOK", "578"))
    else if a == 'B' && b == 'R' && c == 'L' then Some(CurrencyModel("BRAZIL", "Brazilian Real", "BRL", "986"))
    else if a == 'B' && b == 'N' && c == 'D' then Some(CurrencyModel("BRUNEI DARUSSALAM", "Brunei Dollar", "BND", "096"))
    else if a == 'B' && b == 'G' && c == 'N' then Some(CurrencyModel("BULGARIA", "Bulgarian Lev", "BGN", "975"))
    else None
  }

  function Rows2(a: char, b: char, c: char): (r: Option<CurrencyModel>)
    ensures r.Some? ==> r.value.Code() == [a, b, c]
  {
    if false then None
    else if a == 'B' && b == 'I' && c == 'F' then Some(CurrencyModel("BURUNDI", "Burundi Franc", "BIF", "108"))
    else if a == 'C' && b == 'V' && c == 'E' then Some(CurrencyModel("CABO VERDE", "Cabo Verde Escudo", "CVE", "132"))
    else if a == 'K' && b == 'H' && c == 'R' then Some(CurrencyModel("CAMBODIA", "Riel", "KHR", "116"))
    else if a == 'X' && b == 'A' && c == 'F' then Some(CurrencyModel("CAMEROON", "CFA Franc BEAC", "XAF", "950"))
    else if a == 'C' && b == 'A' && c == 'D' then Some(CurrencyModel("CANADA", "Canadian Dollar", "CAD", "124"))
    else if a == 'K' && b == 'Y' && c == 'D' then Some(CurrencyModel("CAYMAN ISLANDS (THE)", "Cayman Islands Dollar", "KYD", "136"))
    else if a == 'C' && b == 'L' && c == 'F' then Some(CurrencyModel("CHILE", "Unidad de Fomento", "CLF", "990"))
    else if a == 'C' && b == 'L' && c == 'P' then Some(CurrencyModel("CHILE", "Chilean Peso", "CLP", "152"))
    else if a == 'C' && b == 'N' && c == 'Y' then Some(CurrencyModel("CHINA", "Yuan Renminbi", "CNY", "156"))
    else if a == 'C' && b == 'O' && c == 'P' then Some(CurrencyModel("COLOMBIA", "Colombian Peso", "COP", "170"))
    else if a == 'C' && b == 'O' && c == 'U' then Some(CurrencyModel("COLOMBIA", "Unidad de Valor Real", "COU", "970"))
    else if a == 'K' && b == 'M' && c == 'F' then Some(CurrencyModel("COMOROS (THE)", "Comoro Franc", "KMF", "174"))
    else if a == 'C' && b == 'D' && c == 'F' then Some(CurrencyModel("CONGO (THE DEMOCRATIC REPUBLIC OF THE)", "Congolese Franc", "CDF", "976"))
    else if a == 'N' && b == 'Z' && c == 'D' then Some(CurrencyModel("COOK ISLANDS (THE)", "New Zealand Dollar", "NZD", "554"))
    else if a == 'C' && b == 'R' && c == 'C' then Some(CurrencyModel("COSTA RICA", "Costa Rican Colon", "CRC", "188"))
    else if a == 'H' && b == 'R' && c == 'K' then Some(CurrencyModel("CROATIA", "Kuna", "HRK", "191"))
    else if a == 'C' && b == 'U' && c == 'C' then Some(CurrencyModel("CUBA", "Peso Convertible", "CUC", "931"))
    else if a == 'C' && b == 'U' && c == 'P' then Some(CurrencyModel("CUBA", "Cuban Peso", "CUP", "192"))
    else if a == 'A' && b == 'N' && c == 'G' then Some(CurrencyModel("CURA\U{C7}AO", "Netherlands Antillean Guilder", "ANG", "532"))
    else if a == 'C' && b == 'Z' && c == 'K' then Some(CurrencyModel("CZECH REPUBLIC (THE)", "Czech Koruna", "CZK", "203"))
    else if a == 'D' && b == 'K' && c == 'K' then Some(CurrencyModel("DENMARK", "Danish Krone", "DKK", "208"))
    else if a == 'D' && b == 'J' && c == 'F' then Some(CurrencyModel("DJIBOUTI", "Djibouti Franc", "DJF", "262"))
    else if a == 'D' && b == 'O' && c == 'P' then Some(CurrencyModel("DOMINICAN REPUBLIC (THE)", "Dominican Peso", "DOP", "214"))
    else if a == 'E' && b == 'G' && c == 'P' then Some(CurrencyModel("EGYPT", "Egyptian Pound", "EGP", "818"))
    else if a == 'S' && b == 'V' && c == 'C' then Some(CurrencyModel("EL SALVADOR", "El Salvador Colon", "SVC", "222"))
    else if a == 'E' && b == 'R' && c == 'N' then Some(CurrencyModel("ERITREA", "Nakfa", "ERN", "232"))
    else if a == 'S' && b == 'Z' && c == 'L' then Some(CurrencyModel("ESWATINI", "Lilangeni", "SZL", "748"))
    else if a == 'E' && b == 'T' && c == 'B' then Some(CurrencyModel("ETHIOPIA", "Ethiopian Birr", "ETB", "230"))
    else if a == 'F' && b == 'K' && c == 'P' then Some(CurrencyModel("FALKLAND ISLANDS (THE)", "Falkland Islands Pound", "FKP", "238"))
    else if a == 'F' && b == 'J' && c == 'D' then Some(CurrencyModel("FIJI", "Fiji Dollar", "FJD", "242"))
    else None
  }

  function Rows3(a: char, b: char, c: char): (r: Option<CurrencyModel>)
    ensures r.Some? ==> r.value.Code() == [a, b, c]
  {
    if false then None
    else if a == 'X' && b == 'P' && c == 'F' then Some(CurrencyModel("FRENCH POLYNESIA", "CFP Franc", "XPF", "953"))
    else if a == 'G' && b == 'M' && c == 'D' then Some(CurrencyModel("GAMBIA (THE)", "Dalasi", "GMD", "270"))
    else if a == 'G' && b == 'E' && c == 'L' then Some(CurrencyModel("GEORGIA", "Lari", "GEL", "981"))
    else if a == 'G' && b == 'H' && c == 'S' then Some(CurrencyModel("GHANA", "Ghana Cedi", "GHS", "936"))
    else if a == 'G' && b == 'I' && c == 'P' then Some(CurrencyModel("GIBRALTAR", "Gibraltar Pound", "GIP", "292"))
    else if a == 'G' && b == 'T' && c == 'Q' then Some(CurrencyModel("GUATEMALA", "Quetzal", "GTQ", "320"))
    else if a == 'G' && b == 'B' && c == 'P' then Some(CurrencyModel("UNITED KINGDOM", "Pound Sterling", "GBP", "826"))
    else if a == 'G' && b == 'N' && c == 'F' then Some(CurrencyModel("GUINEA", "Guinean Franc", "GNF", "324"))
    else if a == 'G' && b == 'Y' && c == 'D' then Some(CurrencyModel("GUYANA", "Guyana Dollar", "GYD", "328"))
    else if a == 'H' && b == 'T' && c == 'G' then Some(CurrencyModel("HAITI", "Gourde", "HTG", "332"))
    else if a == 'H' && b == 'N' && c == 'L' then Some(CurrencyModel("HONDURAS", "Lempira", "HNL", "340"))
    else if a == 'H' && b == 'K' && c == 'D' then Some(CurrencyModel("HONG KONG", "Hong Kong Dollar", "HKD", "344"))
    else if a == 'H' && b == 'U' && c == 'F' then Some(CurrencyModel("HUNGARY", "Forint", "HUF", "348"))
    else if a == 'I' && b == 'S' && c == 'K' then Some(CurrencyModel("ICELAND", "Iceland Krona", "ISK", "352"))
    else if a == 'I' && b == 'D' && c == 'R' then Some(CurrencyModel("INDONESIA", "Rupiah", "IDR", "360"))
    else if a == 'X' && b == 'D' && c == 'R' then Some(CurrencyModel("INTERNATIONAL MONETARY FUND (IMF)", "SDR (Special Drawing Right)", "XDR", "960"))
    else if a == 'I' && b == 'R' && c == 'R' then Some(CurrencyModel("IRAN", "Iranian Rial", "IRR", "364"))
    else if a == 'I' && b == 'Q' && c == 'D' then Some(CurrencyModel("IRAQ", "Iraqi Dinar", "IQD", "368"))
    else if a == 'I' && b == 'L' && c == 'S' then Some(CurrencyModel("ISRAEL", "New Israeli Sheqel", "ILS", "376"))
    else if a == 'J' && b == 'M' && c == 'D' then Some(CurrencyModel("JAMAICA", "Jamaican Dollar", "JMD", "388"))
    else if a == 'J' && b == 'P' && c == 'Y' then Some(CurrencyModel("JAPAN", "Yen", "JPY", "392"))
    else if a == 'J' && b == 'O' && c == 'D' then Some(CurrencyModel("JORDAN", "Jordanian Dinar", "JOD", "400"))
    else if a == 'K' && b == 'Z' && c == 'T' then Some(CurrencyModel("KAZAKHSTAN", "Tenge", "KZT", "398"))
    else if a == 'K' && b == 'E' && c == 'S' then Some(CurrencyModel("KENYA", "Kenyan Shilling", "KES", "404"))
    else if a == 'K' && b == 'P' && c == 'W' then Some(CurrencyModel("KOREA (THE DEMOCRATIC PEOPLE'S REPUBLIC OF)", "North Korean Won", "KPW", "408"))
    else if a == 'K' && b == 'R' && c == 'W' then Some(CurrencyModel("KOREA (THE REPUBLIC OF)", "Won", "KRW", "410"))
    else if a == 'K' && b == 'W' && c == 'D' then Some(CurrencyModel("KUWAIT", "Kuwaiti Dinar", "KWD", "414"))
    else if a == 'K' && b == 'G' && c == 'S' then Some(CurrencyModel("KYRGYZSTAN", "Som", "KGS", "417"))
    else if a == 'L' && b == 'A' && c == 'K' then Some(CurrencyModel("LAO PEOPLE'S DEMOCRATIC REPUBLIC (THE)", "Lao Kip", "LAK", "418"))
    else if a == 'L' && b == 'B' && c == 'P' then Some(CurrencyModel("LEBANON", "Lebanese Pound", "LBP", "422"))
    else None
  }

  function Rows4(a: char, b: char, c: char): (r: Option<CurrencyModel>)
    ensures r.Some? ==> r.value.Code() == [a, b, c]
  {
    if false then None
    else if a == 'L' && b == 'S' && c == 'L' then Some(CurrencyModel("LESOTHO", "Loti", "LSL", "426"))
    else if a == 'Z' && b == 'A' && c == 'R' then Some(CurrencyModel("SOUTH AFRICA", "Rand", "ZAR", "710"))
    else if a == 'L' && b == 'R' && c == 'D' then Some(CurrencyModel("LIBERIA", "Liberian Dollar", "LRD", "430"))
    else if a == 'L' && b == 'Y' && c == 'D' then Some(CurrencyModel("LIBYA", "Libyan Dinar", "LYD", "434"))
    else if a == 'C' && b == 'H' && c == 'F' then Some(CurrencyModel("SWITZERLAND", "Swiss Franc", "CHF", "756"))
    else if a == 'M' && b == 'O' && c == 'P' then Some(CurrencyModel("MACAO", "Pataca", "MOP", "446"))
    else if a == 'M' && b == 'K' && c == 'D' then Some(CurrencyModel("NORTH MACEDONIA", "Denar", "MKD", "807"))
    else if a == 'M' && b == 'G' && c == 'A' then Some(CurrencyModel("MADAGASCAR", "Malagasy Ariary", "MGA", "969"))
    else if a == 'M' && b == 'W' && c == 'K' then Some(CurrencyModel("MALAWI", "Malawi Kwacha", "MWK", "454"))
    else if a == 'M' && b == 'Y' && c == 'R' then Some(CurrencyModel("MALAYSIA", "Malaysian Ringgit", "MYR", "458"))
    else if a == 'M' && b == 'V' && c == 'R' then Some(CurrencyModel("MALDIVES", "Rufiyaa", "MVR", "462"))
    else if a == 'M' && b == 'R' && c == 'U' then Some(CurrencyModel("MAURITANIA", "Ouguiya", "MRU", "929"))
    else if a == 'M' && b == 'U' && c == 'R' then Some(CurrencyModel("MAURITIUS", "Mauritius Rupee", "MUR", "480"))
    else if a == 'X' && b == 'U' && c == 'A' then Some(CurrencyModel("AFRICAN DEVELOPMENT BANK", "ADB Unit of Account", "XUA", "965"))
    else if a == 'M' && b == 'X' && c == 'N' then Some(CurrencyModel("MEXICO", "Mexican Peso", "MXN", "484"))
    else if a == 'M' && b == 'X' && c == 'V' then Some(CurrencyModel("MEXICO", "Mexican Unidad de Inversion (UDI)", "MXV", "979"))
    else if a == 'M' && b == 'D' && c == 'L' then Some(CurrencyModel("REPUBLIC OF MOLDOVA", "Moldovan Leu", "MDL", "498"))
    else if a == 'M' && b == 'N' && c == 'T' then Some(CurrencyModel("MONGOLIA", "Tugrik", "MNT", "496"))
    else if a == 'M' && b == 'A' && c == 'D' then Some(CurrencyModel("MOROCCO", "Moroccan Dirham", "MAD", "504"))
    else if a == 'M' && b == 'Z' && c == 'N' then Some(CurrencyModel("MOZAMBIQUE", "Mozambique Metical", "MZN", "943"))
    else if a == 'M' && b == 'M' && c == 'K' then Some(CurrencyModel("MYANMAR", "Kyat", "MMK", "104"))
    else if a == 'N' && b == 'A' && c == 'D' then Some(CurrencyModel("NAMIBIA", "Namibia Dollar", "NAD", "516"))
    else if a == 'N' && b == 'P' && c == 'R' then Some(CurrencyModel("NEPAL", "Nepalese Rupee", "NPR", "524"))
    else if a == 'N' && b == 'I' && c == 'O' then Some(CurrencyModel("NICARAGUA", "Cordoba Oro", "NIO", "558"))
    else if a == 'N' && b == 'G' && c == 'N' then Some(CurrencyModel("NIGERIA", "Naira", "NGN", "566"))
    else if a == 'O' && b == 'M' && c == 'R' then Some(CurrencyModel("OMAN", "Rial Omani", "OMR", "512"))
    else if a == 'P' && b == 'K' && c == 'R' then Some(CurrencyModel("PAKISTAN", "Pakistan Rupee", "PKR", "586"))
    else if a == 'P' && b == 'A' && c == 'B' then Some(CurrencyModel("PANAMA", "Balboa", "PAB", "590"))
    else if a == 'P' && b == 'G' && c == 'K' then Some(CurrencyModel("PAPUA NEW GUINEA", "Kina", "PGK", "598"))
    else if a == 'P' && b == 'Y' && c == 'G' then Some(CurrencyModel("PARAGUAY", "Guarani", "PYG", "600"))
    else None
  }

  function Rows5(a: char, b: char, c: char): (r: Option<CurrencyModel>)
    ensures r.Some? ==> r.value.Code() == [a, b, c]
  {
    if false then None
    else if a == 'P' && b == 'E' && c == 'N' then Some(CurrencyModel("PERU", "Sol", "PEN", "604"))
    else if a == 'P' && b == 'H' && c == 'P' then Some(CurrencyModel("PHILIPPINES (THE)", "Philippine Peso", "PHP", "608"))
    else if a == 'P' && b == 'L' && c == 'N' then Some(CurrencyModel("POLAND", "Zloty", "PLN", "985"))
    else if a == 'Q' && b == 'A' && c == 'R' then Some(CurrencyModel("QATAR", "Qatari Rial", "QAR", "634"))
    else if a == 'R' && b == 'O' && c == 'N' then Some(CurrencyModel("ROMANIA", "Romanian Leu", "RON", "946"))
    else if a == 'R' && b == 'U' && c == 'B' then Some(CurrencyModel("RUSSIAN FEDERATION (THE)", "Russian Ruble", "RUB", "643"))
    else if a == 'R' && b == 'W' && c == 'F' then Some(CurrencyModel("RWANDA", "Rwanda Franc", "RWF", "646"))
    else if a == 'S' && b == 'H' && c == 'P' then Some(CurrencyModel("SAINT HELENA", "Saint Helena Pound", "SHP", "654"))
    else if a == 'W' && b == 'S' && c == 'T' then Some(CurrencyModel("SAMOA", "Tala", "WST", "882"))
    else if a == 'S' && b == 'T' && c == 'N' then Some(CurrencyModel("SAO TOME AND PRINCIPE", "Dobra", "STN", "930"))
    else if a == 'S' && b == 'A' && c == 'R' then Some(CurrencyModel("SAUDI ARABIA", "Saudi Riyal", "SAR", "682"))
    else if a == 'R' && b == 'S' && c == 'D' then Some(CurrencyModel("SERBIA", "Serbian Dinar", "RSD", "941"))
    else if a == 'S' && b == 'C' && c == 'R' then Some(CurrencyModel("SEYCHELLES", "Seychelles Rupee", "SCR", "690"))
    else if a == 'S' && b == 'L' && c == 'E' then Some(CurrencyModel("SIERRA LEONE", "Leone", "SLE", "925"))
    else if a == 'S' && b == 'G' && c == 'D' then Some(CurrencyModel("SINGAPORE", "Singapore Dollar", "SGD", "702"))
    else if a == 'X' && b == 'S' && c == 'U' then Some(CurrencyModel("SISTEMA UNITARIO DE COMPENSACION REGIONAL DE PAGOS", "Sucre", "XSU", "994"))
    else if a == 'S' && b == 'B' && c == 'D' then Some(CurrencyModel("SOLOMON ISLANDS", "Solomon Islands Dollar", "SBD", "090"))
    else if a == 'S' && b == 'O' && c == 'S' then Some(CurrencyModel("SOMALIA", "Somali Shilling", "SOS", "706"))
    else if a == 'S' && b == 'S' && c == 'P' then Some(CurrencyModel("SOUTH SUDAN", "South Sudanese Pound", "SSP", "728"))
    else if a == 'L' && b == 'K' && c == 'R' then Some(CurrencyModel("SRI LANKA", "Sri Lanka Rupee", "LKR", "144"))
    else if a == 'S' && b == 'D' && c == 'G' then Some(CurrencyModel("SUDAN (THE)", "Sudanese Pound", "SDG", "938"))
    else if a == 'S' && b == 'R' && c == 'D' then Some(CurrencyModel("SURINAME", "Surinam Dollar", "SRD", "968"))
    else if a == 'S' && b == 'E' && c == 'K' then Some(CurrencyModel("SWEDEN", "Swedish Krona", "SEK", "752"))
    else if a == 'C' && b == 'H' && c == 'E' then Some(CurrencyModel("SWITZERLAND", "WIR Euro", "CHE", "947"))
    else if a == 'C' && b == 'H' && c == 'W' then Some(CurrencyModel("SWITZERLAND", "WIR Franc", "CHW", "948"))
    else if a == 'S' && b == 'Y' && c == 'P' then Some(CurrencyModel("SYRIAN ARAB REPUBLIC", "Syrian Pound", "SYP", "760"))
    else if a == 'T' && b == 'W' && c == 'D' then Some(CurrencyModel("TAIWAN", "New Taiwan Dollar", "TWD", "901"))
    else if a == 'T' && b == 'J' && c == 'S' then Some(CurrencyModel("TAJIKISTAN", "Somoni", "TJS", "972"))
    else if a == 'T' && b == 'Z' && c == 'S' then Some(CurrencyModel("TANZANIA", "Tanzanian Shilling", "TZS", "834"))
    else if a == 'T' && b == 'H' && c == 'B' then Some(CurrencyModel("THAILAND", "Baht", "THB", "764"))
    else None
  }

  function Rows6(a: char, b: char, c: char): (r: Option<CurrencyModel>)
    ensures r.Some? ==> r.value.Code() == [a, b, c]
  {
    if false then None
    else if a == 'T' && b == 'O' && c == 'P' then Some(CurrencyModel("TONGA", "Pa'anga", "TOP", "776"))
    else if a == 'T' && b == 'T' && c == 'D' then Some(CurrencyModel("TRINIDAD AND TOBAGO", "Trinidad and Tobago Dollar", "TTD", "780"))
    else if a == 'T' && b == 'N' && c == 'D' then Some(CurrencyModel("TUNISIA", "Tunisian Dinar", "TND", "788"))
    else if a == 'T' && b == 'R' && c == 'Y' then Some(CurrencyModel("TURKEY", "Turkish Lira", "TRY", "949"))
    else if a == 'T' && b == 'M' && c == 'T' then Some(CurrencyModel("TURKMENISTAN", "Turkmenistan New Manat", "TMT", "934"))
    else if a == 'U' && b == 'G' && c == 'X' then Some(CurrencyModel("UGANDA", "Uganda Shilling", "UGX", "800"))
    else if a == 'U' && b == 'A' && c == 'H' then Some(CurrencyModel("UKRAINE", "Hryvnia", "UAH", "980"))
    else if a == 'A' && b == 'E' && c == 'D' then Some(CurrencyModel("UNITED ARAB EMIRATES (THE)", "UAE Dirham", "AED", "784"))
    else if a == 'U' && b == 'S' && c == 'N' then Some(CurrencyModel("UNITED STATES OF AMERICA (THE)", "US Dollar (Next day)", "USN", "997"))
    else if a == 'U' && b == 'Y' && c == 'I' then Some(CurrencyModel("URUGUAY", "Uruguay Peso en Unidades Indexadas", "UYI", "940"))
    else if a == 'U' && b == 'Y' && c == 'U' then Some(CurrencyModel("URUGUAY", "Peso Uruguayo", "UYU", "858"))
    else if a == 'U' && b == 'Z' && c == 'S' then Some(CurrencyModel("UZBEKISTAN", "Uzbekistan Sum", "UZS", "860"))
    else if a == 'V' && b == 'U' && c == 'V' then Some(CurrencyModel("VANUATU", "Vatu", "VUV", "548"))
    else if a == 'V' && b == 'E' && c == 'D' then Some(CurrencyModel("VENEZUELA", "Bol\U{ED}var Soberano", "VED", "926"))
    else if a == 'V' && b == 'E' && c == 'F' then Some(CurrencyModel("VENEZUELA", "Bol\U{ED}var", "VEF", "937"))
    else if a == 'V' && b == 'N' && c == 'D' then Some(CurrencyModel("VIET NAM", "Dong", "VND", "704"))
    else if a == 'Y' && b == 'E' && c == 'R' then Some(CurrencyModel("YEMEN", "Yemeni Rial", "YER", "886"))
    else if a == 'Z' && b == 'M' && c == 'W' then Some(CurrencyModel("ZAMBIA", "Zambian Kwacha", "ZMW", "967"))
    else if a == 'Z' && b == 'W' && c == 'L' then Some(CurrencyModel("ZIMBABWE", "Zimbabwe Dollar", "ZWL", "932"))
    else None
  }

  // ---------------------------------------------------------------------
  // The code set of `validateCurrencyCode`
  // ---------------------------------------------------------------------

  /** Membership of the code set: three runes forming one of its codes. */
  predicate IsValidCurrency(code: string) {
    |code| == CurrencyCodeLength
    && (   Codes1(code[0], code[1], code[2])
        || Codes2(code[0], code[1], code[2])
        || Codes3(code[0], code[1], code[2])
        || Codes4(code[0], code[1], code[2])
        || Codes5(code[0], code[1], code[2])
        || Codes6(code[0], code[1], code[2]))
  }

  // The codes of the set in their order of declaration, a block at a time,
  // each block matched against the rows of the table declared with it.

  predicate Codes1(a: char, b: char, c: char) {
    (a == 'A' && b == 'F' && c == 'N') || (a == 'E' && b == 'U' && c == 'R') || (a == 'A' && b == 'L' && c == 'L')
    || (a == 'D' && b == 'Z' && c == 'D') || (a == 'U' && b == 'S' && c == 'D') || (a == 'A' && b == 'O' && c == 'A')
    || (a == 'X' && b == 'C' && c == 'D') || (a == 'A' && b == 'R' && c == 'S') || (a == 'A' && b == 'M' && c == 'D')
    || (a == 'A' && b == 'W' && c == 'G') || (a == 'A' && b == 'U' && c == 'D') || (a == 'A' && b == 'Z' && c == 'N')
    || (a == 'B' && b == 'S' && c == 'D') || (a == 'B' && b == 'H' && c == 'D') || (a == 'B' && b == 'D' && c == 'T')
    || (a == 'B' && b == 'B' && c == 'D') || (a == 'B' && b == 'Y' && c == 'N') || (a == 'B' && b == 'Z' && c == 'D')
    || (a == 'X' && b == 'O' && c == 'F') || (a == 'B' && b == 'M' && c == 'D') || (a == 'B' && b == 'T' && c == 'N')
    || (a == 'I' && b == 'N' && c == 'R') || (a == 'B' && b == 'O' && c == 'B') || (a == 'B' && b == 'O' && c == 'V')
    || (a == 'B' && b == 'A' && c == 'M') || (a == 'B' && b == 'W' && c == 'P') || (a == 'N' && b == 'O' && c == 'K')
    || (a == 'B' && b == 'R' && c == 'L') || (a == 'B' && b == 'N' && c == 'D') || (a == 'B' && b == 'G' && c == 'N')
  }

  lemma CodesHaveRows1(a: char, b: char, c: char)
    ensures Codes1(a, b, c) <==> Rows1(a, b, c).Some?
  {
  }

  predicate Codes2(a: char, b: char, c: char) {
    (a == 'B' && b == 'I' && c == 'F') || (a == 'C' && b == 'V' && c == 'E') || (a == 'K' && b == 'H' && c == 'R')
    || (a == 'X' && b == 'A' && c == 'F') || (a == 'C' && b == 'A' && c == 'D') || (a == 'K' && b == 'Y' && c == 'D')
    || (a == 'C' && b == 'L' && c == 'F') || (a == 'C' && b == 'L' && c == 'P') || (a == 'C' && b == 'N' && c == 'Y')
    || (a == 'C' && b == 'O' && c == 'P') || (a == 'C' && b == 'O' && c == 'U') || (a == 'K' && b == 'M' && c == 'F')
    || (a == 'C' && b == 'D' && c == 'F') || (a == 'N' && b == 'Z' && c == 'D') || (a == 'C' && b == 'R' && c == 'C')
    || (a == 'H' && b == 'R' && c == 'K') || (a == 'C' && b == 'U' && c == 'C') || (a == 'C' && b == 'U' && c == 'P')
    || (a == 'A' && b == 'N' && c == 'G') || (a == 'C' && b == 'Z' && c == 'K') || (a == 'D' && b == 'K' && c == 'K')
    || (a == 'D' && b == 'J' && c == 'F') || (a == 'D' && b == 'O' && c == 'P') || (a == 'E' && b == 'G' && c == 'P')
    || (a == 'S' && b == 'V' && c == 'C') || (a == 'E' && b == 'R' && c == 'N') || (a == 'S' && b == 'Z' && c == 'L')
    || (a == 'E' && b == 'T' && c == 'B') || (a == 'F' && b == 'K' && c == 'P') || (a == 'F' && b == 'J' && c == 'D')
  }

  lemma CodesHaveRows2(a: char, b: char, c: char)
    ensures Codes2(a, b, c) <==> Rows2(a, b, c).Some?
  {
  }

  predicate Codes3(a: char, b: char, c: char) {
    (a == 'X' && b == 'P' && c == 'F') || (a == 'G' && b == 'M' && c == 'D') || (a == 'G' && b == 'E' && c == 'L')
    || (a == 'G' && b == 'H' && c == 'S') || (a == 'G' && b == 'I' && c == 'P') || (a == 'G' && b == 'T' && c == 'Q')
    || (a == 'G' && b == 'B' && c == 'P') || (a == 'G' && b == 'N' && c == 'F') || (a == 'G' && b == 'Y' && c == 'D')
    || (a == 'H' && b == 'T' && c == 'G') || (a == 'H' && b == 'N' && c == 'L') || (a == 'H' && b == 'K' && c == 'D')
    || (a == 'H' && b == 'U' && c == 'F') || (a == 'I' && b == 'S' && c == 'K') || (a == 'I' && b == 'D' && c == 'R')
    || (a == 'X' && b == 'D' && c == 'R') || (a == 'I' && b == 'R' && c == 'R') || (a == 'I' && b == 'Q' && c == 'D')
    || (a == 'I' && b == 'L' && c == 'S') || (a == 'J' && b == 'M' && c == 'D') || (a == 'J' && b == 'P' && c == 'Y')
    || (a == 'J' && b == 'O' && c == 'D') || (a == 'K' && b == 'Z' && c == 'T') || (a == 'K' && b == 'E' && c == 'S')
    || (a == 'K' && b == 'P' && c == 'W') || (a == 'K' && b == 'R' && c == 'W') || (a == 'K' && b == 'W' && c == 'D')
    || (a == 'K' && b == 'G' && c == 'S') || (a == 'L' && b == 'A' && c == 'K') || (a == 'L' && b == 'B' && c == 'P')
  }

  lemma CodesHaveRows3(a: char, b: char, c: char)
    ensures Codes3(a, b, c) <==> Rows3(a, b, c).Some?
  {
  }

  predicate Codes4(a: char, b: char, c: char) {
    (a == 'L' && b == 'S' && c == 'L') || (a == 'Z' && b == 'A' && c == 'R') || (a == 'L' && b == 'R' && c == 'D')
    || (a == 'L' && b == 'Y' && c == 'D') || (a == 'C' && b == 'H' && c == 'F') || (a == 'M' && b == 'O' && c == 'P')
    || (a == 'M' && b == 'K' && c == 'D') || (a == 'M' && b == 'G' && c == 'A') || (a == 'M' && b == 'W' && c == 'K')
    || (a == 'M' && b == 'Y' && c == 'R') || (a == 'M' && b == 'V' && c == 'R') || (a == 'M' && b == 'R' && c == 'U')
    || (a == 'M' && b == 'U' && c == 'R') || (a == 'X' && b == 'U' && c == 'A') || (a == 'M' && b == 'X' && c == 'N')
    || (a == 'M' && b == 'X' && c == 'V') || (a == 'M' && b == 'D' && c == 'L') || (a == 'M' && b == 'N' && c == 'T')
    || (a == 'M' && b == 'A' && c == 'D') || (a == 'M' && b == 'Z' && c == 'N') || (a == 'M' && b == 'M' && c == 'K')
    || (a == 'N' && b == 'A' && c == 'D') || (a == 'N' && b == 'P' && c == 'R') || (a == 'N' && b == 'I' && c == 'O')
    || (a == 'N' && b == 'G' && c == 'N') || (a == 'O' && b == 'M' && c == 'R') || (a == 'P' && b == 'K' && c == 'R')
    || (a == 'P' && b == 'A' && c == 'B') || (a == 'P' && b == 'G' && c == 'K') || (a == 'P' && b == 'Y' && c == 'G')
  }

  lemma CodesHaveRows4(a: char, b: char, c: char)
    ensures Codes4(a, b, c) <==> Rows4(a, b, c).Some?
  {
  }

  predicate Codes5(a: char, b: char, c: char) {
    (a == 'P' && b == 'E' && c == 'N') || (a == 'P' && b == 'H' && c == 'P') || (a == 'P' && b == 'L' && c == 'N')
    || (a == 'Q' && b == 'A' && c == 'R') || (a == 'R' && b == 'O' && c == 'N') || (a == 'R' && b == 'U' && c == 'B')
    || (a == 'R' && b == 'W' && c == 'F') || (a == 'S' && b == 'H' && c == 'P') || (a == 'W' && b == 'S' && c == 'T')
    || (a == 'S' && b == 'T' && c == 'N') || (a == 'S' && b == 'A' && c == 'R') || (a == 'R' && b == 'S' && c == 'D')
    || (a == 'S' && b == 'C' && c == 'R') || (a == 'S' && b == 'L' && c == 'E') || (a == 'S' && b == 'G' && c == 'D')
    || (a == 'X' && b == 'S' && c == 'U') || (a == 'S' && b == 'B' && c == 'D') || (a == 'S' && b == 'O' && c == 'S')
    || (a == 'S' && b == 'S' && c == 'P') || (a == 'L' && b == 'K' && c == 'R') || (a == 'S' && b == 'D' && c == 'G')
    || (a == 'S' && b == 'R' && c == 'D') || (a == 'S' && b == 'E' && c == 'K') || (a == 'C' && b == 'H' && c == 'E')
    || (a == 'C' && b == 'H' && c == 'W') || (a == 'S' && b == 'Y' && c == 'P') || (a == 'T' && b == 'W' && c == 'D')
    || (a == 'T' && b == 'J' && c == 'S') || (a == 'T' && b == 'Z' && c == 'S') || (a == 'T' && b == 'H' && c == 'B')
  }

  lemma CodesHaveRows5(a: char, b: char, c: char)
    ensures Codes5(a, b, c) <==> Rows5(a, b, c).Some?
  {
  }

  predicate Codes6(a: char, b: char, c: char) {
    (a == 'T' && b == 'O' && c == 'P') || (a == 'T' && b == 'T' && c == 'D') || (a == 'T' && b == 'N' && c == 'D')
    || (a == 'T' && b == 'R' && c == 'Y') || (a == 'T' && b == 'M' && c == 'T') || (a == 'U' && b == 'G' && c == 'X')
    || (a == 'U' && b == 'A' && c == 'H') || (a == 'A' && b == 'E' && c == 'D') || (a == 'U' && b == 'S' && c == 'N')
    || (a == 'U' && b == 'Y' && c == 'I') || (a == 'U' && b == 'Y' && c == 'U') || (a == 'U' && b == 'Z' && c == 'S')
    || (a == 'V' && b == 'U' && c == 'V') || (a == 'V' && b == 'E' && c == 'D') || (a == 'V' && b == 'E' && c == 'F')
    || (a == 'V' && b == 'N' && c == 'D') || (a == 'Y' && b == 'E' && c == 'R') || (a == 'Z' && b == 'M' && c == 'W')
    || (a == 'Z' && b == 'W' && c == 'L')
  }

  lemma CodesHaveRows6(a: char, b: char, c: char)
    ensures Codes6(a, b, c) <==> Rows6(a, b, c).Some?
  {
  }

  /** The table holds a record for exactly the codes the validator accepts,
      so the placeholder of `CurrencyInfo` is never produced for a code that
      passed validation. */
  lemma TableCoversValidCodes(code: string)
    ensures CurrencyData(code).Some? <==> IsValidCurrency(code)
  {
    if |code| == 3 {
      var a, b, c := code[0], code[1], code[2];
      CodesHaveRows1(a, b, c);
      CodesHaveRows2(a, b, c);
      CodesHaveRows3(a, b, c);
      CodesHaveRows4(a, b, c);
      CodesHaveRows5(a, b, c);
      CodesHaveRows6(a, b, c);
    }
  }

  /** Every valid code is three ASCII capital letters, so three bytes long. */
  lemma ValidCodesAreThreeBytes(code: string)
    requires IsValidCurrency(code)
    ensures Text.ByteLen(code) == 3
    ensures forall i | 0 <= i < 3 :: 'A' <= code[i] <= 'Z'
  {
    CodesAreCapitals(code[0], code[1], code[2]);
    assert Text.IsAscii(code);
    Text.AsciiByteLen(code);
  }

  /** Every code of the set is spelt in ASCII capitals. */
  lemma CodesAreCapitals(a: char, b: char, c: char)
    ensures Codes1(a, b, c) || Codes2(a, b, c) || Codes3(a, b, c) || Codes4(a, b, c) || Codes5(a, b, c) || Codes6(a, b, c)
            ==> 'A' <= a <= 'Z' && 'A' <= b <= 'Z' && 'A' <= c <= 'Z'
  {
  }

  const ErrCurrencyCodeEmpty := "currency code cannot be empty"
  const ErrCurrencyCodeInvalidLength := "currency code must be exactly 3 characters"

  /** `getCurrencyInfo`: the record of the table, or an "UNKNOWN" placeholder
      for a code it does not hold. Either way the code is the one asked for. */
  function CurrencyInfo(code: string): (r: CurrencyModel)
    ensures r.Code() == code
    ensures IsValidCurrency(code) <==> Some(r) == CurrencyData(code)
  {
    TableCoversValidCodes(code);
    match CurrencyData(code)
    case Some(info) => info
    case None => CurrencyModel("UNKNOWN", "Unknown Currency", code, "000")
  }

  /** `validateCurrencyCode`: emptiness first, then the byte length, then
      membership of the code set (case-sensitive). */
  function Validate(code: string): (err: Option<string>)
    ensures err == None <==> IsValidCurrency(code)
    ensures code == [] ==> err == Some(ErrCurrencyCodeEmpty)
    ensures code != [] && Text.ByteLen(code) != 3 ==> err == Some(ErrCurrencyCodeInvalidLength)
    ensures code != [] && Text.ByteLen(code) == 3 && !IsValidCurrency(code)
            ==> err == Some("invalid currency code: " + code)
  {
    assert IsValidCurrency(code) ==> Text.ByteLen(code) == 3 by {
      if IsValidCurrency(code) {
        ValidCodesAreThreeBytes(code);
      }
    }
    if code == [] then Some(ErrCurrencyCodeEmpty)
    else if Text.ByteLen(code) != CurrencyCodeLength then Some(ErrCurrencyCodeInvalidLength)
    else if !IsValidCurrency(code) then Some("invalid currency code: " + code)
    else None
  }

  /** `CreateCurrencyModel`: the input is trimmed, validated, and looked up
      in the table. */
  function Create(code: string): (r: Result<CurrencyModel>)
    ensures r.Ok? <==> IsValidCurrency(Text.TrimSpace(code))
    ensures r.Ok? ==> r.value.Code() == Text.TrimSpace(code) && Some(r.value) == CurrencyData(r.value.Code())
    ensures r.Err? ==> Some(r.error) == Validate(Text.TrimSpace(code))
  {
    var c := Text.TrimSpace(code);
    match Validate(c)
    case Some(e) => Err(e)
    case None => Ok(CurrencyInfo(c))
  }

  lemma UsdRecord()
    ensures Validate("USD") == None
    ensures CurrencyInfo("USD") == CurrencyModel("AMERICAN SAMOA", "US Dollar", "USD", "840")
  {
    assert Rows1('U', 'S', 'D') == Some(CurrencyModel("AMERICAN SAMOA", "US Dollar", "USD", "840"));
    TableCoversValidCodes("USD");
    ValidCodesAreThreeBytes("USD");
  }

  /** Surrounding white space is trimmed and the record comes from the
      table. */
  lemma AcceptsPaddedCode()
    ensures Create("  USD ") == Ok(CurrencyModel("AMERICAN SAMOA", "US Dollar", "USD", "840"))
  {
    assert "  USD " == "  " + "USD" + " ";
    Text.TrimPadded("  ", "USD", " ");
    UsdRecord();
  }

  /** The check is case-sensitive: a trimmed three-letter ASCII code that
      does not start with a capital, such as "usd", is refused with the
      code in the message. */
  lemma RejectsLowerCase(code: string)
    requires Text.Trimmed(code) && |code| == 3 && Text.IsAscii(code)
    requires !('A' <= code[0] <= 'Z')
    ensures Create(code) == Err("invalid currency code: " + code)
  {
    Text.TrimmedFixpoint(code);
    Text.AsciiByteLen(code);
    CodesAreCapitals(code[0], code[1], code[2]);
  }

  /** Length is checked in bytes after trimming: a trimmed ASCII code of
      another length than three, such as "US", is refused for its length. */
  lemma RejectsWrongLength(code: string)
    requires Text.Trimmed(code) && code != [] && Text.IsAscii(code) && |code| != 3
    ensures Create(code) == Err(ErrCurrencyCodeInvalidLength)
  {
    Text.TrimmedFixpoint(code);
    Text.AsciiByteLen(code);
  }

  /** White space alone trims to the empty code. */
  lemma RejectsBlank()
    ensures Create("   ") == Err(ErrCurrencyCodeEmpty)
  {
    Text.TrimSpaceEmpty("   ");
  }
}
