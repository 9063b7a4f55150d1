/**
 * The in-memory query layer of backend/services/data_service.py. The pandas
 * frame becomes a sequence of rows: counts are integers, per-million figures
 * are reals, and every pandas operation becomes a filter, sum, sort, take or
 * map over sequences. CSV parsing, `pd.to_numeric` and `pd.to_datetime`
 * happen before `RawRow`: a missing or non-numeric cell arrives as `None`.
 */
module DataService {
  import opened Wrappers
  import opened Api
  import opened Sorting
  import opened Sums
  import opened Filters

  /** A row of the CSV as read, restricted to the columns the service uses. */
  datatype RawRow = RawRow(
    location: Option<string>,
    isoCode: Option<string>,
    date: Day,
    totalCases: Option<int>,
    totalDeaths: Option<int>,
    newCases: Option<int>,
    newDeaths: Option<int>,
    population: Option<int>,
    casesPerMillion: Option<real>,
    deathsPerMillion: Option<real>)

  /** A row of `self.df` after loading: no missing values left. */
  datatype Row = Row(
    location: string,
    isoCode: string,
    date: Day,
    totalCases: int,
    totalDeaths: int,
    newCases: int,
    newDeaths: int,
    population: int,
    casesPerMillion: real,
    deathsPerMillion: real)

  /** `/api/country/{name}`: the latest figures and a 30-day window. */
  datatype LatestStats = LatestStats(totalCases: int, totalDeaths: int, casesPerMillion: real, deathsPerMillion: real)
  datatype DailyEntry = DailyEntry(date: Day, newCases: int, newDeaths: int)
  datatype CountryData = CountryData(country: string, latestStats: LatestStats, dailyData: seq<DailyEntry>)

  /** `/api/top-countries`. */
  datatype Ranked = Ranked(country: string, cases: int, deaths: int)
  datatype TopCountries = TopCountries(byCases: seq<Ranked>, byDeaths: seq<Ranked>, allCountries: seq<string>)

  /** The ISO codes kept at load time (data_service.py:22-24), a list as in the source. */
  const Sovereign: seq<string> := [
    "AFG", "ALB", "DZA", "AND", "AGO", "ATG", "ARG", "ARM", "AUS", "AUT", "AZE", "BHS",
    "BHR", "BGD", "BRB", "BLR", "BEL", "BLZ", "BEN", "BTN", "BOL", "BIH", "BWA", "BRA",
    "BRN", "BGR", "BFA", "BDI", "KHM", "CMR", "CAN", "CPV", "CAF", "TCD", "CHL", "CHN",
    "COL", "COM", "COG", "CRI", "CIV", "HRV", "CUB", "CYP", "CZE", "DNK", "DJI", "DMA",
    "DOM", "ECU", "EGY", "SLV", "GNQ", "ERI", "EST", "ETH", "FJI", "FIN", "FRA", "GAB",
    "GMB", "GEO", "DEU", "GHA", "GRC", "GRD", "GTM", "GIN", "GNB", "GUY", "HTI", "HND",
    "HUN", "ISL", "IND", "IDN", "IRN", "IRQ", "IRL", "ISR", "ITA", "JAM", "JPN", "JOR",
    "KAZ", "KEN", "KIR", "PRK", "KOR", "KWT", "KGZ", "LAO", "LVA", "LBN", "LSO", "LBR",
    "LBY", "LIE", "LTU", "LUX", "MDG", "MWI", "MYS", "MDV", "MLI", "MLT", "MHL", "MRT",
    "MUS", "MEX", "FSM", "MDA", "MCO", "MNG", "MNE", "MAR", "MOZ", "MMR", "NAM", "NRU",
    "NPL", "NLD", "NZL", "NIC", "NER", "NGA", "NOR", "OMN", "PAK", "PLW", "PAN", "PNG",
    "PRY", "PER", "PHL", "POL", "PRT", "QAT", "ROU", "RUS", "RWA", "KNA", "LCA", "VCT",
    "WSM", "SMR", "STP", "SAU", "SEN", "SRB", "SYC", "SLE", "SGP", "SVK", "SVN", "SLB",
    "SOM", "ZAF", "SSD", "ESP", "LKA", "SDN", "SUR", "SWE", "CHE", "SYR", "TWN", "TJK",
    "TZA", "THA", "TLS", "TGO", "TON", "TTO", "TUN", "TUR", "TKM", "TUV", "UGA", "UKR",
    "ARE", "GBR", "USA", "URY", "UZB", "VUT", "VAT", "VEN", "VNM", "YEM", "ZMB", "ZWE"
  ]

  /** The columns the service needs, in the order it selects them. */
  const RequiredColumns: seq<string> := [
    "location", "date", "total_cases", "total_deaths", "new_cases", "new_deaths", "population",
    "total_cases_per_million", "total_deaths_per_million", "iso_code"
  ]

  /**
   * `country_code_map` (data_service.py:129-312): an ISO alpha-3 code to the numeric id
   * the world map uses, one function per commented section of the dict literal. No key
   * occurs twice in the literal, so asking the sections in order gives the dict's answer.
   */
  function MapId(iso: string): Option<string> {
    if NorthAmericaId(iso).Some? then NorthAmericaId(iso)
    else if SouthAmericaId(iso).Some? then SouthAmericaId(iso)
    else if EuropeId(iso).Some? then EuropeId(iso)
    else if AfricaId(iso).Some? then AfricaId(iso)
    else if AsiaId(iso).Some? then AsiaId(iso)
    else OceaniaId(iso)
  }

  /** The "North America" section of the dict (data_service.py:131-134). */
  function NorthAmericaId(iso: string): Option<string> {
    if |iso| != 3 then None
    else match (iso[0], iso[1], iso[2])
    case ('U', 'S', 'A') => Some("840")
    case ('C', 'A', 'N') => Some("124")
    case ('M', 'E', 'X') => Some("484")
    case _ => None
  }

  /** The "South America" section of the dict (data_service.py:136-148). */
  function SouthAmericaId(iso: string): Option<string> {
    if |iso| != 3 then None
    else match (iso[0], iso[1], iso[2])
    case ('A', 'R', 'G') => Some("032")
    case ('B', 'O', 'L') => Some("068")
    case ('B', 'R', 'A') => Some("076")
    case ('C', 'H', 'L') => Some("152")
    case ('C', 'O', 'L') => Some("170")
    case ('E', 'C', 'U') => Some("218")
    case ('G', 'U', 'Y') => Some("328")
    case ('P', 'E', 'R') => Some("604")
    case ('P', 'R', 'Y') => Some("600")
    case ('S', 'U', 'R') => Some("740")
    case ('U', 'R', 'Y') => Some("858")
    case ('V', 'E', 'N') => Some("862")
    case _ => None
  }

  /** The "Europe" section of the dict (data_service.py:150-193). */
  function EuropeId(iso: string): Option<string> {
    if |iso| != 3 then None
    else match (iso[0], iso[1], iso[2])
    case ('A', 'L', 'B') => Some("008")
    case ('A', 'N', 'D') => Some("020")
    case ('A', 'U', 'T') => Some("040")
    case ('B', 'E', 'L') => Some("056")
    case ('B', 'I', 'H') => Some("070")
    case ('B', 'G', 'R') => Some("100")
    case ('H', 'R', 'V') => Some("191")
    case ('C', 'Z', 'E') => Some("203")
    case ('D', 'N', 'K') => Some("208")
    case ('E', 'S', 'T') => Some("233")
    case ('F', 'I', 'N') => Some("246")
    case ('F', 'R', 'A') => Some("250")
    case ('D', 'E', 'U') => Some("276")
    case ('G', 'R', 'C') => Some("300")
    case ('H', 'U', 'N') => Some("348")
    case ('I', 'S', 'L') => Some("352")
    case ('I', 'R', 'L') => Some("372")
    case ('I', 'T', 'A') => Some("380")
    case ('L', 'V', 'A') => Some("428")
    case ('L', 'I', 'E') => Some("438")
    case ('L', 'T', 'U') => Some("440")
    case ('L', 'U', 'X') => Some("442")
    case ('M', 'L', 'T') => Some("470")
    case ('M', 'D', 'A') => Some("498")
    case ('M', 'C', 'O') => Some("492")
    case ('M', 'N', 'E') => Some("499")
    case ('N', 'L', 'D') => Some("528")
    case ('M', 'K', 'D') => Some("807")
    case ('N', 'O', 'R') => Some("578")
    case ('P', 'O', 'L') => Some("616")
    case ('P', 'R', 'T') => Some("620")
    case ('R', 'O', 'U') => Some("642")
    case ('R', 'U', 'S') => Some("643")
    case ('S', 'M', 'R') => Some("674")
    case ('S', 'R', 'B') => Some("688")
    case ('S', 'V', 'K') => Some("703")
    case ('S', 'V', 'N') => Some("705")
    case ('E', 'S', 'P') => Some("724")
    case ('S', 'W', 'E') => Some("752")
    case ('C', 'H', 'E') => Some("756")
    case ('U', 'K', 'R') => Some("804")
    case ('G', 'B', 'R') => Some("826")
    case ('V', 'A', 'T') => Some("336")
    case _ => None
  }

  /** The "Africa" section of the dict (data_service.py:195-248). */
  function AfricaId(iso: string): Option<string> {
    if |iso| != 3 then None
    else match (iso[0], iso[1], iso[2])
    case ('D', 'Z', 'A') => Some("012")
    case ('A', 'G', 'O') => Some("024")
    case ('B', 'E', 'N') => Some("204")
    case ('B', 'W', 'A') => Some("072")
    case ('B', 'F', 'A') => Some("854")
    case ('B', 'D', 'I') => Some("108")
    case ('C', 'M', 'R') => Some("120")
    case ('C', 'P', 'V') => Some("132")
    case ('C', 'A', 'F') => Some("140")
    case ('T', 'C', 'D') => Some("148")
    case ('C', 'O', 'M') => Some("174")
    case ('C', 'O', 'G') => Some("178")
    case ('C', 'O', 'D') => Some("180")
    case ('D', 'J', 'I') => Some("262")
    case ('E', 'G', 'Y') => Some("818")
    case ('G', 'N', 'Q') => Some("226")
    case ('E', 'R', 'I') => Some("232")
    case ('E', 'T', 'H') => Some("231")
    case ('G', 'A', 'B') => Some("266")
    case ('G', 'M', 'B') => Some("270")
    case ('G', 'H', 'A') => Some("288")
    case ('G', 'I', 'N') => Some("324")
    case ('G', 'N', 'B') => Some("624")
    case ('K', 'E', 'N') => Some("404")
    case ('L', 'S', 'O') => Some("426")
    case ('L', 'B', 'R') => Some("430")
    case ('L', 'B', 'Y') => Some("434")
    case ('M', 'D', 'G') => Some("450")
    case ('M', 'W', 'I') => Some("454")
    case ('M', 'L', 'I') => Some("466")
    case ('M', 'R', 'T') => Some("478")
    case ('M', 'U', 'S') => Some("480")
    case ('M', 'A', 'R') => Some("504")
    case ('M', 'O', 'Z') => Some("508")
    case ('N', 'A', 'M') => Some("516")
    case ('N', 'E', 'R') => Some("562")
    case ('N', 'G', 'A') => Some("566")
    case ('R', 'W', 'A') => Some("646")
    case ('S', 'T', 'P') => Some("678")
    case ('S', 'E', 'N') => Some("686")
    case ('S', 'Y', 'C') => Some("690")
    case ('S', 'L', 'E') => Some("694")
    case ('S', 'O', 'M') => Some("706")
    case ('Z', 'A', 'F') => Some("710")
    case ('S', 'S', 'D') => Some("728")
    case ('S', 'D', 'N') => Some("729")
    case ('S', 'W', 'Z') => Some("748")
    case ('T', 'Z', 'A') => Some("834")
    case ('T', 'G', 'O') => Some("768")
    case ('T', 'U', 'N') => Some("788")
    case ('U', 'G', 'A') => Some("800")
    case ('Z', 'M', 'B') => Some("894")
    case ('Z', 'W', 'E') => Some("716")
    case _ => None
  }

  /** The "Asia" section of the dict (data_service.py:250-295). */
  function AsiaId(iso: string): Option<string> {
    if |iso| != 3 then None
    else match (iso[0], iso[1], iso[2])
    case ('A', 'F', 'G') => Some("004")
    case ('A', 'R', 'M') => Some("051")
    case ('A', 'Z', 'E') => Some("031")
    case ('B', 'H', 'R') => Some("048")
    case ('B', 'G', 'D') => Some("050")
    case ('B', 'T', 'N') => Some("064")
    case ('B', 'R', 'N') => Some("096")
    case ('K', 'H', 'M') => Some("116")
    case ('C', 'H', 'N') => Some("156")
    case ('C', 'Y', 'P') => Some("196")
    case ('G', 'E', 'O') => Some("268")
    case ('I', 'N', 'D') => Some("356")
    case ('I', 'D', 'N') => Some("360")
    case ('I', 'R', 'N') => Some("364")
    case ('I', 'R', 'Q') => Some("368")
    case ('I', 'S', 'R') => Some("376")
    case ('J', 'O', 'R') => Some("400")
    case ('K', 'A', 'Z') => Some("398")
    case ('K', 'W', 'T') => Some("414")
    case ('K', 'G', 'Z') => Some("417")
    case ('L', 'A', 'O') => Some("418")
    case ('L', 'B', 'N') => Some("422")
    case ('M', 'Y', 'S') => Some("458")
    case ('M', 'D', 'V') => Some("462")
    case ('M', 'N', 'G') => Some("496")
    case ('M', 'M', 'R') => Some("104")
    case ('N', 'P', 'L') => Some("524")
    case ('O', 'M', 'N') => Some("512")
    case ('P', 'A', 'K') => Some("586")
    case ('P', 'S', 'E') => Some("275")
    case ('P', 'H', 'L') => Some("608")
    case ('Q', 'A', 'T') => Some("634")
    case ('S', 'A', 'U') => Some("682")
    case ('S', 'G', 'P') => Some("702")
    case ('L', 'K', 'A') => Some("144")
    case ('S', 'Y', 'R') => Some("760")
    case ('T', 'J', 'K') => Some("762")
    case ('T', 'H', 'A') => Some("764")
    case ('T', 'L', 'S') => Some("626")
    case ('T', 'U', 'R') => Some("792")
    case ('T', 'K', 'M') => Some("795")
    case ('A', 'R', 'E') => Some("784")
    case ('U', 'Z', 'B') => Some("860")
    case ('V', 'N', 'M') => Some("704")
    case ('Y', 'E', 'M') => Some("887")
    case _ => None
  }

  /** The "Oceania" section of the dict (data_service.py:297-311). */
  function OceaniaId(iso: string): Option<string> {
    if |iso| != 3 then None
    else match (iso[0], iso[1], iso[2])
    case ('A', 'U', 'S') => Some("036")
    case ('F', 'J', 'I') => Some("242")
    case ('K', 'I', 'R') => Some("296")
    case ('M', 'H', 'L') => Some("584")
    case ('F', 'S', 'M') => Some("583")
    case ('N', 'R', 'U') => Some("520")
    case ('N', 'Z', 'L') => Some("554")
    case ('P', 'L', 'W') => Some("585")
    case ('P', 'N', 'G') => Some("598")
    case ('W', 'S', 'M') => Some("882")
    case ('S', 'L', 'B') => Some("090")
    case ('T', 'O', 'N') => Some("776")
    case ('T', 'U', 'V') => Some("798")
    case ('V', 'U', 'T') => Some("548")
    case _ => None
  }

  /** How many days `get_country_data` reports, and how many countries each top list holds. */
  const WindowDays: nat := 30
  const TopCount: nat := 10
  /** The fewest total cases a country needs to appear on the map and in the totals. */
  const MinCases: int := 10

  // ---------------------------------------------------------------- loading

  /** `[col for col in columns if col not in self.df.columns]`. */
  function MissingColumns(header: seq<string>): (missing: seq<string>)
    ensures forall c :: c in missing <==> c in RequiredColumns && c !in header
  {
    MissingFrom(RequiredColumns, header)
  }

  function MissingFrom(wanted: seq<string>, header: seq<string>): (missing: seq<string>)
    ensures forall c :: c in missing <==> c in wanted && c !in header
  {
    Filter(wanted, (c: string) => c !in header)
  }

  /** Python's `str` of a list of strings: `['a', 'b']`. */
  function ListText(items: seq<string>): string {
    "[" + JoinQuoted(items) + "]"
  }

  function JoinQuoted(items: seq<string>): string {
    if items == [] then ""
    else if |items| == 1 then "'" + items[0] + "'"
    else "'" + items[0] + "', " + JoinQuoted(items[1..])
  }

  /**
   * The exception raised for the CSV's header, if any: selecting a missing
   * `iso_code` or `location` column raises a KeyError first, and any other
   * missing column is reported by the explicit check.
   */
  function HeaderError(header: seq<string>): (e: Option<string>)
    ensures e.None? <==> forall c :: c in RequiredColumns ==> c in header
  {
    if "iso_code" !in header then
      assert RequiredColumns[9] == "iso_code";
      Some("'iso_code'")
    else if "location" !in header then
      assert RequiredColumns[0] == "location";
      Some("'location'")
    else
      var missing := MissingColumns(header);
      if missing == [] then None
      else
        assert missing[0] in missing;
        Some("Missing required columns: " + ListText(missing))
  }

  /** The row filter of lines 27-31: a sovereign ISO code and a location. */
  predicate IsSovereignRow(r: RawRow) {
    r.isoCode.Some? && r.isoCode.value in Sovereign && r.location.Some?
  }

  function SovereignRows(raw: seq<RawRow>): (kept: seq<RawRow>)
    ensures forall r :: r in kept <==> r in raw && IsSovereignRow(r)
  {
    Filter(raw, IsSovereignRow)
  }

  /** A numeric cell after `fillna(0)`: its own value when present, 0 when missing. */
  predicate Filled<T(==)>(cell: Option<T>, v: T, zero: T) {
    (cell.Some? ==> v == cell.value) && (cell.None? ==> v == zero)
  }

  /** Lines 52-56 on one row: every numeric cell that is missing becomes 0. */
  function CleanRow(r: RawRow): (row: Row)
    requires IsSovereignRow(r)
    ensures row.location == r.location.value && row.isoCode == r.isoCode.value && row.date == r.date
    ensures Filled(r.totalCases, row.totalCases, 0) && Filled(r.totalDeaths, row.totalDeaths, 0)
    ensures Filled(r.newCases, row.newCases, 0) && Filled(r.newDeaths, row.newDeaths, 0)
    ensures Filled(r.population, row.population, 0)
    ensures Filled(r.casesPerMillion, row.casesPerMillion, 0.0) && Filled(r.deathsPerMillion, row.deathsPerMillion, 0.0)
  {
    Row(r.location.value, r.isoCode.value, r.date,
        r.totalCases.GetOr(0), r.totalDeaths.GetOr(0), r.newCases.GetOr(0), r.newDeaths.GetOr(0),
        r.population.GetOr(0), r.casesPerMillion.GetOr(0.0), r.deathsPerMillion.GetOr(0.0))
  }

  function CleanRows(raw: seq<RawRow>): (rows: seq<Row>)
    requires forall r :: r in raw ==> IsSovereignRow(r)
    ensures |rows| == |raw|
    ensures forall i :: 0 <= i < |raw| ==> rows[i] == CleanRow(raw[i])
  {
    if raw == [] then [] else [CleanRow(raw[0])] + CleanRows(raw[1..])
  }

  /** Lines 63-64: only days up to the cutoff stay. */
  function UntilCutoff(rows: seq<Row>): (kept: seq<Row>)
    ensures forall r :: r in kept <==> r in rows && r.date <= Cutoff
  {
    Filter(rows, (r: Row) => r.date <= Cutoff)
  }

  /** `self.df` at the end of a successful `load_data`. */
  function LoadedRows(raw: seq<RawRow>): seq<Row> {
    UntilCutoff(CleanRows(SovereignRows(raw)))
  }

  /** Every loaded row comes from a kept raw row dated up to the cutoff. */
  lemma LoadedRowsSound(raw: seq<RawRow>, row: Row)
    requires row in LoadedRows(raw)
    ensures exists r :: r in raw && IsSovereignRow(r) && CleanRow(r) == row && row.date <= Cutoff
  {
    var kept := SovereignRows(raw);
    var cleaned := CleanRows(kept);
    var i :| 0 <= i < |cleaned| && cleaned[i] == row;
    assert kept[i] in kept;
  }

  /** Every kept raw row dated up to the cutoff is loaded. */
  lemma LoadedRowsComplete(raw: seq<RawRow>, r: RawRow)
    requires r in raw && IsSovereignRow(r) && r.date <= Cutoff
    ensures CleanRow(r) in LoadedRows(raw)
  {
    var kept := SovereignRows(raw);
    var i :| 0 <= i < |kept| && kept[i] == r;
    assert CleanRows(kept)[i] == CleanRow(r);
  }

  /** A row survives loading exactly when a sovereign, located raw row up to the cutoff cleans to it. */
  lemma LoadedRowsSpec(raw: seq<RawRow>, row: Row)
    ensures row in LoadedRows(raw) <==>
              exists r :: r in raw && IsSovereignRow(r) && CleanRow(r) == row && row.date <= Cutoff
  {
    if row in LoadedRows(raw) {
      LoadedRowsSound(raw, row);
    }
    if exists r :: r in raw && IsSovereignRow(r) && CleanRow(r) == row && row.date <= Cutoff {
      var r :| r in raw && IsSovereignRow(r) && CleanRow(r) == row && row.date <= Cutoff;
      LoadedRowsComplete(raw, r);
    }
  }

  /** The `date` column. */
  function DatesOf(rows: seq<Row>): (ds: seq<Day>)
    ensures |ds| == |rows|
    ensures forall i :: 0 <= i < |rows| ==> ds[i] == rows[i].date
  {
    if rows == [] then [] else [rows[0].date] + DatesOf(rows[1..])
  }

  /** Each day strictly before the next: ascending and free of repetitions. */
  predicate StrictlyAscending(ds: seq<Day>) {
    forall i :: 0 < i < |ds| ==> ds[i - 1] < ds[i]
  }

  function InsertDay(d: Day, ds: seq<Day>): (r: seq<Day>)
    requires StrictlyAscending(ds)
    ensures StrictlyAscending(r)
    ensures forall x :: x in r <==> x == d || x in ds
    ensures r != [] && (r[0] == d || (ds != [] && r[0] == ds[0]))
  {
    if ds == [] || d < ds[0] then [d] + ds
    else if d == ds[0] then ds
    else [ds[0]] + InsertDay(d, ds[1..])
  }

  /** `sorted(self.df['date'].unique())`. */
  function SortedDistinct(ds: seq<Day>): (r: seq<Day>)
    ensures StrictlyAscending(r)
    ensures forall x :: x in r <==> x in ds
  {
    if ds == [] then [] else InsertDay(ds[0], SortedDistinct(ds[1..]))
  }

  /** The largest day of a non-empty column (`self.df['date'].max()`). */
  function MaxDate(rows: seq<Row>): (d: Day)
    requires rows != []
    ensures exists r :: r in rows && r.date == d
    ensures forall r :: r in rows ==> r.date <= d
  {
    if |rows| == 1 then rows[0].date
    else
      var rest := MaxDate(rows[1..]);
      if rows[0].date >= rest then rows[0].date else rest
  }

  // ---------------------------------------------------------------- queries

  /** `self.df[self.df['date'] == d]`. */
  function RowsOn(rows: seq<Row>, d: Day): (day: seq<Row>)
    ensures forall r :: r in day <==> r in rows && r.date == d
    ensures |day| <= |rows|
  {
    Filter(rows, (r: Row) => r.date == d)
  }

  /** `day_data[day_data['total_cases'] >= 10]`. */
  function WithMinCases(rows: seq<Row>): (kept: seq<Row>)
    ensures forall r :: r in kept <==> r in rows && r.totalCases >= MinCases
    ensures |kept| <= |rows|
  {
    Filter(rows, (r: Row) => r.totalCases >= MinCases)
  }

  /** `self.df[self.df['location'] == name]`, in frame order. */
  function RowsOf(rows: seq<Row>, name: string): (mine: seq<Row>)
    ensures forall r :: r in mine <==> r in rows && r.location == name
  {
    Filter(rows, (r: Row) => r.location == name)
  }

  /** A country has no rows exactly when no row carries its name. */
  lemma RowsOfEmpty(rows: seq<Row>, name: string)
    ensures RowsOf(rows, name) == [] <==> forall row :: row in rows ==> row.location != name
  {
    var mine := RowsOf(rows, name);
    if mine != [] {
      assert mine[0] in mine;
    }
  }

  /** The largest cases per million of a non-empty frame. */
  function MaxCasesPerMillion(rows: seq<Row>): (m: real)
    requires rows != []
    ensures exists r :: r in rows && r.casesPerMillion == m
    ensures forall r :: r in rows ==> r.casesPerMillion <= m
  {
    if |rows| == 1 then rows[0].casesPerMillion
    else
      var rest := MaxCasesPerMillion(rows[1..]);
      if rows[0].casesPerMillion >= rest then rows[0].casesPerMillion else rest
  }

  /** Lines 121-124: cases per million as a percentage of the day's maximum, or 0 when that maximum is not positive. */
  function Severity(casesPerMillion: real, top: real): (r: real)
    ensures top <= 0.0 ==> r == 0.0
    ensures top > 0.0 ==> r * top == casesPerMillion * 100.0
  {
    if top > 0.0 then casesPerMillion / top * 100.0 else 0.0
  }

  /** `country_code_map.get(iso, iso)`: the numeric id of a listed code, any other code unchanged. */
  function CodeFor(iso: string): (code: string)
    ensures MapId(iso).Some? ==> code == MapId(iso).value
    ensures MapId(iso).None? ==> code == iso
  {
    match MapId(iso)
    case Some(id) => id
    case None => iso
  }

  /** One element of the `countries` list of `get_map_data`. */
  function MapEntry(r: Row, top: real): MapCountry {
    MapCountry(r.location, CodeFor(r.isoCode), r.totalCases, r.totalDeaths,
               r.casesPerMillion, r.deathsPerMillion, Severity(r.casesPerMillion, top))
  }

  function MapEntries(rows: seq<Row>, top: real): (cs: seq<MapCountry>)
    ensures |cs| == |rows|
    ensures forall i :: 0 <= i < |rows| ==> cs[i] == MapEntry(rows[i], top)
  {
    if rows == [] then [] else [MapEntry(rows[0], top)] + MapEntries(rows[1..], top)
  }

  function SeverityKey(c: MapCountry): real { c.severity }
  function CasesKey(r: Row): real { r.totalCases as real }
  function DeathsKey(r: Row): real { r.totalDeaths as real }
  function RankedCases(r: Ranked): real { r.cases as real }
  function RankedDeaths(r: Ranked): real { r.deaths as real }

  function RowCases(r: Row): int { r.totalCases }
  function RowDeaths(r: Row): int { r.totalDeaths }

  /** `df.nlargest(10, column)`: the rows in non-increasing key order, ties in frame order, cut at ten. */
  function TopRows(rows: seq<Row>, key: Row -> real): (top: seq<Row>)
    ensures |top| == if |rows| < TopCount then |rows| else TopCount
    ensures NonIncreasing(top, key)
  {
    var sorted := SortDesc(rows, key);
    if |sorted| <= TopCount then sorted else sorted[..TopCount]
  }

  function RankedOf(rows: seq<Row>): (rs: seq<Ranked>)
    ensures |rs| == |rows|
    ensures forall i :: 0 <= i < |rows| ==> rs[i] == Ranked(rows[i].location, rows[i].totalCases, rows[i].totalDeaths)
  {
    if rows == [] then []
    else [Ranked(rows[0].location, rows[0].totalCases, rows[0].totalDeaths)] + RankedOf(rows[1..])
  }

  function Locations(rows: seq<Row>): (names: seq<string>)
    ensures |names| == |rows|
    ensures forall i :: 0 <= i < |rows| ==> names[i] == rows[i].location
  {
    if rows == [] then [] else [rows[0].location] + Locations(rows[1..])
  }

  function DailyEntries(rows: seq<Row>): (es: seq<DailyEntry>)
    ensures |es| == |rows|
    ensures forall i :: 0 <= i < |rows| ==> es[i] == DailyEntry(rows[i].date, rows[i].newCases, rows[i].newDeaths)
  {
    if rows == [] then [] else [DailyEntry(rows[0].date, rows[0].newCases, rows[0].newDeaths)] + DailyEntries(rows[1..])
  }

  /** The smallest day of a non-empty frame (`last_30_days['date'].min()`). */
  function MinDate(rows: seq<Row>): (d: Day)
    requires rows != []
    ensures exists r :: r in rows && r.date == d
    ensures forall r :: r in rows ==> d <= r.date
  {
    if |rows| == 1 then rows[0].date
    else
      var rest := MinDate(rows[1..]);
      if rows[0].date <= rest then rows[0].date else rest
  }

  /** `pd.date_range(end=last, periods=n, freq='D')` with zero counts: `n` days ending on `last` itself. */
  function Padding(last: Day, n: nat): (pad: seq<DailyEntry>)
    ensures |pad| == n
    ensures forall i :: 0 <= i < n ==> pad[i] == DailyEntry(last - n + 1 + i, 0, 0)
  {
    seq(n, i requires 0 <= i < n => DailyEntry(last - n + 1 + i, 0, 0))
  }

  /** The last `WindowDays` rows (`tail(30)`). */
  function LastWindow(rows: seq<Row>): (tail: seq<Row>)
    ensures |tail| == if |rows| < WindowDays then |rows| else WindowDays
    ensures tail == rows[|rows| - |tail|..]
  {
    if |rows| <= WindowDays then rows else rows[|rows| - WindowDays..]
  }

  /**
   * The `daily_data` of one country: its last `WindowDays` rows, preceded by
   * zero entries when it has fewer rows than that.
   */
  function DailyWindow(mine: seq<Row>): (daily: seq<DailyEntry>)
    requires mine != []
    ensures |daily| == WindowDays
    ensures var shown := if |mine| < WindowDays then |mine| else WindowDays;
            daily[WindowDays - shown..] == DailyEntries(mine[|mine| - shown..])
    ensures forall i :: 0 <= i < WindowDays - |mine| ==> daily[i].newCases == 0 && daily[i].newDeaths == 0
  {
    var tail := LastWindow(mine);
    if |tail| < WindowDays then Padding(MinDate(tail), WindowDays - |tail|) + DailyEntries(tail)
    else DailyEntries(tail)
  }

  /** `DataService`: the loaded frame and the timeline derived from it. */
  class Service {
    /** `self.df`. */
    var df: seq<Row>
    /** `self.date_strings`. */
    var dateStrings: seq<Day>

    /** What a successful load establishes and every query relies on. */
    ghost predicate Valid()
      reads this
    {
      && (forall r :: r in df ==> r.isoCode in Sovereign && r.date <= Cutoff)
      && StrictlyAscending(dateStrings)
      && (forall d :: d in dateStrings <==> d in DatesOf(df))
    }

    /** Lines 9-11: no frame and no dates before `load_data` runs. */
    constructor ()
      ensures df == [] && dateStrings == [] && Valid()
    {
      df := [];
      dateStrings := [];
    }

    /**
     * `load_data`, on a CSV already read into `header` and `raw`. It fails for
     * a missing column and when no row survives the filters (logging
     * `self.date_strings[0]` then raises an IndexError); on failure the source
     * abandons the half-built service, so the model leaves the fields alone.
     */
    method LoadData(header: seq<string>, raw: seq<RawRow>) returns (outcome: Result<()>)
      modifies this
      ensures outcome.Ok? <==> HeaderError(header).None? && LoadedRows(raw) != []
      ensures outcome.Ok? ==> df == LoadedRows(raw) && dateStrings == SortedDistinct(DatesOf(df)) && Valid()
      ensures outcome.Err? ==> df == old(df) && dateStrings == old(dateStrings)
    {
      var headerError := HeaderError(header);
      if headerError.Some? {
        return Err(headerError.value);
      }
      var kept := SovereignRows(raw);
      var cleaned := CleanRows(kept);
      var recent := UntilCutoff(cleaned);
      if recent == [] {
        return Err("list index out of range");
      }
      df := recent;
      dateStrings := SortedDistinct(DatesOf(df));
      forall r | r in df
        ensures r.isoCode in Sovereign && r.date <= Cutoff
      {
        LoadedRowsSound(raw, r);
      }
      return Ok(());
    }

    /** `get_dates`: the timeline, ascending, one entry per day present in the frame. */
    function GetDates(): (ds: seq<Day>)
      reads this
      requires Valid()
      ensures StrictlyAscending(ds)
      ensures forall d :: d in ds <==> exists r :: r in df && r.date == d
    {
      assert forall d :: d in DatesOf(df) <==> exists r :: r in df && r.date == d by {
        forall d ensures d in DatesOf(df) ==> exists r :: r in df && r.date == d {
          if d in DatesOf(df) {
            var i :| 0 <= i < |df| && DatesOf(df)[i] == d;
            assert df[i] in df;
          }
        }
      }
      dateStrings
    }
  
    /**
     * `get_map_data`: the day's countries with at least ten cases, ordered by
     * severity. A day without rows yields an empty list; a day whose rows all
     * have fewer than ten cases raises at `day_data['date'].iloc[0]`.
     */
    function GetMapData(date: Day): (r: Result<MapData>)
      reads this
      ensures r.Err? <==>
                (exists row :: row in df && row.date == date) &&
                (forall row :: row in df && row.date == date ==> row.totalCases < MinCases)
      ensures r.Ok? ==> r.value.date == date
      ensures r.Ok? ==> NonIncreasing(r.value.countries, SeverityKey)
      ensures r.Ok? ==> |r.value.countries| == |WithMinCases(RowsOn(df, date))|
    {
      var day := RowsOn(df, date);
      if day == [] then Ok(MapData(date, []))
      else
        var kept := WithMinCases(day);
        if kept == [] then
          assert day[0] in day;
          Err("single positional indexer is out-of-bounds")
        else
          assert kept[0] in kept;
          var top := MaxCasesPerMillion(kept);
          Ok(MapData(date, SortDesc(MapEntries(kept, top), SeverityKey)))
    }

    /**
     * `get_global_stats`: totals over the countries with at least ten cases
     * on the given day, or on the latest day of the frame when no day is
     * given (which raises when the frame is empty, formatting a missing date).
     */
    function GetGlobalStats(date: Option<Day>): (r: Result<GlobalStats>)
      reads this
      ensures r.Err? <==> date.None? && df == []
      ensures date.Some? ==> r.Ok? && r.value.date == date.value
      ensures date.None? && r.Ok? ==>
                (exists row :: row in df && row.date == r.value.date) &&
                (forall row :: row in df ==> row.date <= r.value.date)
      ensures r.Ok? ==>
                var kept := WithMinCases(RowsOn(df, r.value.date));
                && r.value.totalCases == SumBy(kept, RowCases)
                && r.value.totalDeaths == SumBy(kept, RowDeaths)
                && r.value.totalCountries == |kept| <= |df|
    {
      if date.Some? then
        var day := RowsOn(df, date.value);
        if day == [] then Ok(GlobalStats(0, 0, 0, date.value))
        else
          var kept := WithMinCases(day);
          Ok(GlobalStats(SumBy(kept, RowCases), SumBy(kept, RowDeaths), |kept|, date.value))
      else if df == [] then Err("NaTType does not support strftime")
      else
        var latest := MaxDate(df);
        var kept := WithMinCases(RowsOn(df, latest));
        Ok(GlobalStats(SumBy(kept, RowCases), SumBy(kept, RowDeaths), |kept|, latest))
    }

    /**
     * `get_country_data`: the country's last row in frame order, and its last
     * thirty rows as daily entries, preceded by zero entries when it has fewer.
     */
    function GetCountryData(name: string): (r: Result<CountryData>)
      reads this
      ensures r.Err? <==> forall row :: row in df ==> row.location != name
      ensures r.Err? ==> r.message == "Country " + name + " not found"
      ensures r.Ok? ==>
                var mine := RowsOf(df, name);
                var latest := mine[|mine| - 1];
                && r.value.country == name
                && r.value.latestStats ==
                     LatestStats(latest.totalCases, latest.totalDeaths, latest.casesPerMillion, latest.deathsPerMillion)
                && r.value.dailyData == DailyWindow(mine)
    {
      var mine := RowsOf(df, name);
      RowsOfEmpty(df, name);
      if mine == [] then Err("Country " + name + " not found")
      else
        var latest := mine[|mine| - 1];
        Ok(CountryData(name,
                       LatestStats(latest.totalCases, latest.totalDeaths, latest.casesPerMillion, latest.deathsPerMillion),
                       DailyWindow(mine)))
    }

    /**
     * `get_top_countries`: on the latest day, the ten rows with the most cases,
     * the ten with the most deaths, and every location in text order. An
     * empty frame gives three empty lists.
     */
    function GetTopCountries(): (r: TopCountries)
      reads this
      ensures df == [] ==> r == TopCountries([], [], [])
      ensures df != [] ==>
                var day := RowsOn(df, MaxDate(df));
                && |r.byCases| == |r.byDeaths| == (if |day| < TopCount then |day| else TopCount)
                && NonIncreasing(r.byCases, RankedCases)
                && NonIncreasing(r.byDeaths, RankedDeaths)
                && Ascending(r.allCountries)
                && multiset(r.allCountries) == multiset(Locations(day))
    {
      if df == [] then TopCountries([], [], [])
      else
        var day := RowsOn(df, MaxDate(df));
        var byCases := TopRows(day, CasesKey);
        var byDeaths := TopRows(day, DeathsKey);
        RankedKeepsOrder(byCases);
        RankedKeepsOrder(byDeaths);
        TopCountries(RankedOf(byCases), RankedOf(byDeaths), SortText(Locations(day)))
    }
  }

  /** Projecting rows to `Ranked` keeps their order by cases and by deaths. */
  lemma RankedKeepsOrder(rows: seq<Row>)
    ensures NonIncreasing(rows, CasesKey) ==> NonIncreasing(RankedOf(rows), RankedCases)
    ensures NonIncreasing(rows, DeathsKey) ==> NonIncreasing(RankedOf(rows), RankedDeaths)
  {
  }
}
