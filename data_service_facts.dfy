/**
 * Properties of the data service that relate several of its operations:
 * what loading keeps, how map data and global statistics agree, what the
 * top-ten selection guarantees and how the country window is padded.
 */
module DataServiceFacts {
  import opened Wrappers
  import opened Api
  import opened Sorting
  import opened Sums
  import opened Filters
  import opened DataService

  /** After a successful load every timeline day lies on or before the cutoff and has a row. */
  lemma DatesUpToCutoff(s: DataService.Service)
    requires s.Valid()
    ensures forall d :: d in s.GetDates() ==> d <= Cutoff && exists r :: r in s.df && r.date == d
  {
  }

  /** The explicit check reports a single missing column by itself. */
  lemma {:induction false} MissingFromOnly(wanted: seq<string>, header: seq<string>, c: string)
    requires forall i, j :: 0 <= i < j < |wanted| ==> wanted[i] != wanted[j]
    requires c in wanted && c !in header
    requires forall w :: w in wanted && w != c ==> w in header
    ensures MissingFrom(wanted, header) == [c]
  {
    if wanted[0] == c {
      var rest := MissingFrom(wanted[1..], header);
      if rest != [] {
        assert rest[0] in rest;
      }
    } else {
      assert wanted[0] in header;
      MissingFromOnly(wanted[1..], header, c);
    }
  }

  lemma RequiredColumnsDistinct()
    ensures forall i, j :: 0 <= i < j < |RequiredColumns| ==> RequiredColumns[i] != RequiredColumns[j]
  {
  }

  /**
   * A header lacking exactly one required column other than `iso_code` and
   * `location` fails with that column named in Python's list syntax.
   */
  lemma SingleMissingColumn(header: seq<string>, c: string)
    requires c in RequiredColumns && c != "iso_code" && c != "location" && c !in header
    requires forall w :: w in RequiredColumns && w != c ==> w in header
    ensures HeaderError(header) == Some("Missing required columns: ['" + c + "']")
  {
    assert "location" in header && "iso_code" in header by {
      assert RequiredColumns[0] == "location" && RequiredColumns[9] == "iso_code";
    }
    OnlyMissingColumn(header, c);
    QuotedSingleton(c);
  }

  lemma OnlyMissingColumn(header: seq<string>, c: string)
    requires c in RequiredColumns && c !in header
    requires forall w :: w in RequiredColumns && w != c ==> w in header
    ensures MissingColumns(header) == [c]
  {
    RequiredColumnsDistinct();
    MissingFromOnly(RequiredColumns, header, c);
  }

  lemma QuotedSingleton(c: string)
    ensures "Missing required columns: " + ListText([c]) == "Missing required columns: ['" + c + "']"
  {
    assert JoinQuoted([c]) == "'" + c + "'";
    assert ListText([c]) == "['" + c + "']" by {
      assert "[" + ("'" + c + "'") + "]" == "['" + c + "']";
    }
  }

  /** A missing `iso_code` column raises a KeyError before any other check. */
  lemma MissingIsoCodeFirst(header: seq<string>)
    requires "iso_code" !in header
    ensures HeaderError(header) == Some("'iso_code'")
  {
  }

  /** Scoring keeps one entry per row and nothing else. */
  lemma MapEntriesMembers(rows: seq<Row>, top: real, c: MapCountry)
    ensures c in MapEntries(rows, top) <==> exists row :: row in rows && c == MapEntry(row, top)
  {
    var entries := MapEntries(rows, top);
    if c in entries {
      var i :| 0 <= i < |entries| && entries[i] == c;
      assert rows[i] in rows;
    }
    if exists row :: row in rows && c == MapEntry(row, top) {
      var row :| row in rows && c == MapEntry(row, top);
      var i :| 0 <= i < |rows| && rows[i] == row;
      assert entries[i] == c;
    }
  }

  /**
   * The countries of a day's map data are exactly the day's rows with at
   * least ten cases, each scored against the day's largest cases per million.
   */
  lemma MapDataCountries(s: DataService.Service, date: Day, c: MapCountry)
    requires s.GetMapData(date).Ok? && s.GetMapData(date).value.countries != []
    ensures WithMinCases(RowsOn(s.df, date)) != []
    ensures c in s.GetMapData(date).value.countries <==>
              exists row :: row in s.df && row.date == date && row.totalCases >= MinCases &&
                            c == MapEntry(row, MaxCasesPerMillion(WithMinCases(RowsOn(s.df, date))))
  {
    var kept := WithMinCases(RowsOn(s.df, date));
    var top := MaxCasesPerMillion(kept);
    var entries := MapEntries(kept, top);
    var cs := s.GetMapData(date).value.countries;
    assert cs == SortDesc(entries, SeverityKey);
    assert c in cs <==> c in multiset(entries);
    MapEntriesMembers(kept, top, c);
  }

  /** A share of a positive maximum, as a percentage, lies between 0 and 100. */
  lemma SeverityWithinRange(cpm: real, top: real)
    requires 0.0 <= cpm <= top
    ensures 0.0 <= Severity(cpm, top) <= 100.0
    ensures top > 0.0 && cpm == top ==> Severity(cpm, top) == 100.0
  {
    if top > 0.0 {
      var share := cpm / top;
      assert share * top == cpm;
      PositiveFactor(share, top);
      assert (1.0 - share) * top == top - cpm;
      PositiveFactor(1.0 - share, top);
    }
  }

  /** A factor of a non-negative product with a positive other factor is non-negative. */
  lemma PositiveFactor(p: real, t: real)
    requires t > 0.0 && p * t >= 0.0
    ensures p >= 0.0
  {
  }

  /**
   * When no figure of the day is negative, every severity is a percentage,
   * and the country with the largest cases per million scores 100 unless
   * that largest figure is 0, in which case every severity is 0.
   */
  lemma MapDataSeverities(s: DataService.Service, date: Day)
    requires s.GetMapData(date).Ok? && s.GetMapData(date).value.countries != []
    requires forall row :: row in s.df ==> row.casesPerMillion >= 0.0
    ensures forall c :: c in s.GetMapData(date).value.countries ==> 0.0 <= c.severity <= 100.0
    ensures var cs := s.GetMapData(date).value.countries;
            (exists c :: c in cs && c.severity == 100.0) || (forall c :: c in cs ==> c.severity == 0.0)
  {
    var kept := WithMinCases(RowsOn(s.df, date));
    var top := MaxCasesPerMillion(kept);
    var cs := s.GetMapData(date).value.countries;
    forall c | c in cs
      ensures 0.0 <= c.severity <= 100.0
      ensures top <= 0.0 ==> c.severity == 0.0
    {
      MapDataCountries(s, date, c);
      var row :| row in s.df && row.date == date && row.totalCases >= MinCases && c == MapEntry(row, top);
      assert row in kept;
      SeverityWithinRange(row.casesPerMillion, top);
    }
    if top > 0.0 {
      var row :| row in kept && row.casesPerMillion == top;
      SeverityWithinRange(top, top);
      MapDataCountries(s, date, MapEntry(row, top));
    }
  }

  function CountryCases(c: MapCountry): int { c.cases }
  function CountryDeaths(c: MapCountry): int { c.deaths }

  /** Scoring rows as map entries keeps their case and death sums. */
  lemma {:induction false} MapEntriesSums(rows: seq<Row>, top: real)
    ensures SumBy(MapEntries(rows, top), CountryCases) == SumBy(rows, RowCases)
    ensures SumBy(MapEntries(rows, top), CountryDeaths) == SumBy(rows, RowDeaths)
  {
    if rows != [] {
      MapEntriesSums(rows[1..], top);
      assert MapEntries(rows, top)[1..] == MapEntries(rows[1..], top);
    }
  }

  /**
   * The global statistics of a day agree with that day's map data: as many
   * countries as the map lists, and the sums of their cases and deaths.
   */
  lemma GlobalStatsMatchMapData(s: DataService.Service, date: Day)
    requires s.GetMapData(date).Ok?
    ensures var cs := s.GetMapData(date).value.countries;
            var stats := s.GetGlobalStats(Some(date)).value;
            && stats.totalCountries == |cs|
            && stats.totalCases == SumBy(cs, CountryCases)
            && stats.totalDeaths == SumBy(cs, CountryDeaths)
  {
    var day := RowsOn(s.df, date);
    if day != [] {
      var kept := WithMinCases(day);
      var top := MaxCasesPerMillion(kept);
      var entries := MapEntries(kept, top);
      var cs := SortDesc(entries, SeverityKey);
      SumByPermutation(cs, entries, CountryCases);
      SumByPermutation(cs, entries, CountryDeaths);
      MapEntriesSums(kept, top);
    }
  }

  /** Asking for no date is asking for the latest day of the frame. */
  lemma LatestStatsAreLatestDay(s: DataService.Service)
    requires s.df != []
    ensures s.GetGlobalStats(None).Ok?
    ensures s.GetGlobalStats(None) == s.GetGlobalStats(Some(s.GetGlobalStats(None).value.date))
  {
  }

  /** A day without rows reports zero everywhere. */
  lemma EmptyDayStats(s: DataService.Service, date: Day)
    requires forall row :: row in s.df ==> row.date != date
    ensures s.GetGlobalStats(Some(date)) == Ok(GlobalStats(0, 0, 0, date))
    ensures s.GetMapData(date) == Ok(MapData(date, []))
  {
  }

  /**
   * A day whose rows all have fewer than ten cases makes the map call raise,
   * yet its global statistics are zero totals for that day.
   */
  lemma StatsOfDayWithoutMapEntries(s: DataService.Service, date: Day)
    requires s.GetMapData(date).Err?
    ensures s.GetGlobalStats(Some(date)) == Ok(GlobalStats(0, 0, 0, date))
  {
  }

  /**
   * `nlargest`: the selection is drawn from the rows, and no row left out
   * has a larger key than any row selected.
   */
  lemma TopRowsSpec(rows: seq<Row>, key: Row -> real)
    ensures multiset(TopRows(rows, key)) <= multiset(rows)
    ensures forall x, y :: x in rows && multiset(TopRows(rows, key))[x] < multiset(rows)[x] && y in TopRows(rows, key) ==>
              key(y) >= key(x)
  {
    var sorted := SortDesc(rows, key);
    var top := TopRows(rows, key);
    if |sorted| > TopCount {
      var rest := sorted[TopCount..];
      assert sorted == top + rest;
      assert multiset(rows) == multiset(top) + multiset(rest);
      forall x, y | x in rows && multiset(top)[x] < multiset(rows)[x] && y in top
        ensures key(y) >= key(x)
      {
        assert x in multiset(rest);
        LeftOutRanksLower(sorted, key, TopCount, x, y);
      }
    }
  }

  /** In a descending order, whatever lies past a cut ranks no higher than what lies before it. */
  lemma LeftOutRanksLower(sorted: seq<Row>, key: Row -> real, n: nat, x: Row, y: Row)
    requires NonIncreasing(sorted, key) && n <= |sorted|
    requires x in sorted[n..] && y in sorted[..n]
    ensures key(y) >= key(x)
  {
    var j :| n <= j < |sorted| && sorted[j] == x;
    var i :| 0 <= i < n && sorted[i] == y;
    NonIncreasingAllPairs(sorted, key, i, j);
  }

  /** Top lists by cases: the rows behind them come from the latest day. */
  lemma TopCountriesFromLatestDay(s: DataService.Service)
    requires s.df != []
    ensures forall t :: t in s.GetTopCountries().byCases ==>
              exists row :: row in s.df && row.date == MaxDate(s.df) && t == Ranked(row.location, row.totalCases, row.totalDeaths)
    ensures forall t :: t in s.GetTopCountries().byDeaths ==>
              exists row :: row in s.df && row.date == MaxDate(s.df) && t == Ranked(row.location, row.totalCases, row.totalDeaths)
  {
    var day := RowsOn(s.df, MaxDate(s.df));
    RankedFrom(TopRows(day, CasesKey), day, CasesKey);
    RankedFrom(TopRows(day, DeathsKey), day, DeathsKey);
  }

  lemma RankedFrom(top: seq<Row>, day: seq<Row>, key: Row -> real)
    requires top == TopRows(day, key)
    ensures forall t :: t in RankedOf(top) ==> exists row :: row in day && t == Ranked(row.location, row.totalCases, row.totalDeaths)
  {
    TopRowsSpec(day, key);
    forall t | t in RankedOf(top)
      ensures exists row :: row in day && t == Ranked(row.location, row.totalCases, row.totalDeaths)
    {
      var i :| 0 <= i < |top| && RankedOf(top)[i] == t;
      assert top[i] in multiset(top);
      assert top[i] in multiset(day);
    }
  }

  /**
   * A country with fewer than thirty rows gets padding whose days run one
   * after another and end on its earliest day, so that day appears twice:
   * once with zero counts and once with its own.
   */
  lemma PaddingRepeatsEarliestDay(mine: seq<Row>)
    requires mine != [] && |mine| < WindowDays
    ensures var daily := DailyWindow(mine);
            var pad := WindowDays - |mine|;
            && (forall i :: 0 < i < pad ==> daily[i].date == daily[i - 1].date + 1)
            && daily[pad - 1].date == MinDate(mine)
            && (exists k :: pad <= k < WindowDays && daily[k].date == daily[pad - 1].date)
  {
    PaddingRunsToEarliestDay(mine);
    EarliestDayFollows(mine);
  }

  /** The padding days of a short window run one after another up to the earliest day. */
  lemma PaddingRunsToEarliestDay(mine: seq<Row>)
    requires mine != [] && |mine| < WindowDays
    ensures var daily := DailyWindow(mine);
            var pad := WindowDays - |mine|;
            && (forall i :: 0 < i < pad ==> daily[i].date == daily[i - 1].date + 1)
            && daily[pad - 1].date == MinDate(mine)
  {
    ShortWindow(mine);
    PaddingThenEntries(MinDate(mine), WindowDays - |mine|, DailyEntries(mine));
  }

  /** After the padding of a short window, the earliest day comes again with its own row. */
  lemma EarliestDayFollows(mine: seq<Row>)
    requires mine != [] && |mine| < WindowDays
    ensures exists k :: WindowDays - |mine| <= k < WindowDays && DailyWindow(mine)[k].date == MinDate(mine)
  {
    var daily := DailyWindow(mine);
    var pad := WindowDays - |mine|;
    assert daily[pad..] == DailyEntries(mine[0..]);
    var r :| r in mine && r.date == MinDate(mine);
    var j :| 0 <= j < |mine| && mine[j] == r;
    assert daily[pad..][j] == DailyEntries(mine[0..])[j];
  }

  /** Padding followed by any entries: consecutive days ending on the given day. */
  lemma PaddingThenEntries(last: Day, n: nat, entries: seq<DailyEntry>)
    requires n > 0
    ensures forall i :: 0 < i < n ==> (Padding(last, n) + entries)[i].date == (Padding(last, n) + entries)[i - 1].date + 1
    ensures (Padding(last, n) + entries)[n - 1].date == last
  {
  }

  /** A country with fewer than thirty rows: padding, then every row. */
  lemma ShortWindow(mine: seq<Row>)
    requires mine != [] && |mine| < WindowDays
    ensures DailyWindow(mine) == Padding(MinDate(mine), WindowDays - |mine|) + DailyEntries(mine)
  {
    assert LastWindow(mine) == mine;
  }

  /** The numeric ids the world map's features carry. */
  // ------------------------------------------------------- numeric map ids

  /** Three ASCII digits, the form of every numeric id the world map uses. */
  predicate IsNumericId(s: string) {
    |s| == 3 && '0' <= s[0] <= '9' && '0' <= s[1] <= '9' && '0' <= s[2] <= '9'
  }

  /** The value of a decimal digit. */
  function Digit(c: char): int {
    c as int - '0' as int
  }

  /** A string of length three is its three characters. */
  lemma ThreeChars(s: string)
    requires |s| == 3
    ensures s == [s[0], s[1], s[2]]
  {
  }

  /**
   * The reverse of `country_code_map`: the code that each numeric id of the table
   * belongs to, in ascending order of id.
   */
  function OwnerOf(id: string): Option<string> {
    if !IsNumericId(id) then None
    else
      var (d0, d1, d2) := (Digit(id[0]), Digit(id[1]), Digit(id[2]));
      match d0
      case 0 => Owner0xx(d1, d2)
      case 1 => Owner1xx(d1, d2)
      case 2 => Owner2xx(d1, d2)
      case 3 => Owner3xx(d1, d2)
      case 4 => Owner4xx(d1, d2)
      case 5 => Owner5xx(d1, d2)
      case 6 => Owner6xx(d1, d2)
      case 7 => Owner7xx(d1, d2)
      case 8 => Owner8xx(d1, d2)
      case _ => None
  }

  /** The ids from 000 to 099 in the reverse table. */
  function Owner0xx(d1: int, d2: int): Option<string> {
    match (d1, d2)
    case (0, 4) => Some("AFG")
    case (0, 8) => Some("ALB")
    case (1, 2) => Some("DZA")
    case (2, 0) => Some("AND")
    case (2, 4) => Some("AGO")
    case (3, 1) => Some("AZE")
    case (3, 2) => Some("ARG")
    case (3, 6) => Some("AUS")
    case (4, 0) => Some("AUT")
    case (4, 8) => Some("BHR")
    case (5, 0) => Some("BGD")
    case (5, 1) => Some("ARM")
    case (5, 6) => Some("BEL")
    case (6, 4) => Some("BTN")
    case (6, 8) => Some("BOL")
    case (7, 0) => Some("BIH")
    case (7, 2) => Some("BWA")
    case (7, 6) => Some("BRA")
    case (9, 0) => Some("SLB")
    case (9, 6) => Some("BRN")
    case _ => None
  }

  /** The ids from 100 to 199 in the reverse table. */
  function Owner1xx(d1: int, d2: int): Option<string> {
    match (d1, d2)
    case (0, 0) => Some("BGR")
    case (0, 4) => Some("MMR")
    case (0, 8) => Some("BDI")
    case (1, 6) => Some("KHM")
    case (2, 0) => Some("CMR")
    case (2, 4) => Some("CAN")
    case (3, 2) => Some("CPV")
    case (4, 0) => Some("CAF")
    case (4, 4) => Some("LKA")
    case (4, 8) => Some("TCD")
    case (5, 2) => Some("CHL")
    case (5, 6) => Some("CHN")
    case (7, 0) => Some("COL")
    case (7, 4) => Some("COM")
    case (7, 8) => Some("COG")
    case (8, 0) => Some("COD")
    case (9, 1) => Some("HRV")
    case (9, 6) => Some("CYP")
    case _ => None
  }

  /** The ids from 200 to 299 in the reverse table. */
  function Owner2xx(d1: int, d2: int): Option<string> {
    match (d1, d2)
    case (0, 3) => Some("CZE")
    case (0, 4) => Some("BEN")
    case (0, 8) => Some("DNK")
    case (1, 8) => Some("ECU")
    case (2, 6) => Some("GNQ")
    case (3, 1) => Some("ETH")
    case (3, 2) => Some("ERI")
    case (3, 3) => Some("EST")
    case (4, 2) => Some("FJI")
    case (4, 6) => Some("FIN")
    case (5, 0) => Some("FRA")
    case (6, 2) => Some("DJI")
    case (6, 6) => Some("GAB")
    case (6, 8) => Some("GEO")
    case (7, 0) => Some("GMB")
    case (7, 5) => Some("PSE")
    case (7, 6) => Some("DEU")
    case (8, 8) => Some("GHA")
    case (9, 6) => Some("KIR")
    case _ => None
  }

  /** The ids from 300 to 399 in the reverse table. */
  function Owner3xx(d1: int, d2: int): Option<string> {
    match (d1, d2)
    case (0, 0) => Some("GRC")
    case (2, 4) => Some("GIN")
    case (2, 8) => Some("GUY")
    case (3, 6) => Some("VAT")
    case (4, 8) => Some("HUN")
    case (5, 2) => Some("ISL")
    case (5, 6) => Some("IND")
    case (6, 0) => Some("IDN")
    case (6, 4) => Some("IRN")
    case (6, 8) => Some("IRQ")
    case (7, 2) => Some("IRL")
    case (7, 6) => Some("ISR")
    case (8, 0) => Some("ITA")
    case (9, 8) => Some("KAZ")
    case _ => None
  }

  /** The ids from 400 to 499 in the reverse table. */
  function Owner4xx(d1: int, d2: int): Option<string> {
    match (d1, d2)
    case (0, 0) => Some("JOR")
    case (0, 4) => Some("KEN")
    case (1, 4) => Some("KWT")
    case (1, 7) => Some("KGZ")
    case (1, 8) => Some("LAO")
    case (2, 2) => Some("LBN")
    case (2, 6) => Some("LSO")
    case (2, 8) => Some("LVA")
    case (3, 0) => Some("LBR")
    case (3, 4) => Some("LBY")
    case (3, 8) => Some("LIE")
    case (4, 0) => Some("LTU")
    case (4, 2) => Some("LUX")
    case (5, 0) => Some("MDG")
    case (5, 4) => Some("MWI")
    case (5, 8) => Some("MYS")
    case (6, 2) => Some("MDV")
    case (6, 6) => Some("MLI")
    case (7, 0) => Some("MLT")
    case (7, 8) => Some("MRT")
    case (8, 0) => Some("MUS")
    case (8, 4) => Some("MEX")
    case (9, 2) => Some("MCO")
    case (9, 6) => Some("MNG")
    case (9, 8) => Some("MDA")
    case (9, 9) => Some("MNE")
    case _ => None
  }

  /** The ids from 500 to 599 in the reverse table. */
  function Owner5xx(d1: int, d2: int): Option<string> {
    match (d1, d2)
    case (0, 4) => Some("MAR")
    case (0, 8) => Some("MOZ")
    case (1, 2) => Some("OMN")
    case (1, 6) => Some("NAM")
    case (2, 0) => Some("NRU")
    case (2, 4) => Some("NPL")
    case (2, 8) => Some("NLD")
    case (4, 8) => Some("VUT")
    case (5, 4) => Some("NZL")
    case (6, 2) => Some("NER")
    case (6, 6) => Some("NGA")
    case (7, 8) => Some("NOR")
    case (8, 3) => Some("FSM")
    case (8, 4) => Some("MHL")
    case (8, 5) => Some("PLW")
    case (8, 6) => Some("PAK")
    case (9, 8) => Some("PNG")
    case _ => None
  }

  /** The ids from 600 to 699 in the reverse table. */
  function Owner6xx(d1: int, d2: int): Option<string> {
    match (d1, d2)
    case (0, 0) => Some("PRY")
    case (0, 4) => Some("PER")
    case (0, 8) => Some("PHL")
    case (1, 6) => Some("POL")
    case (2, 0) => Some("PRT")
    case (2, 4) => Some("GNB")
    case (2, 6) => Some("TLS")
    case (3, 4) => Some("QAT")
    case (4, 2) => Some("ROU")
    case (4, 3) => Some("RUS")
    case (4, 6) => Some("RWA")
    case (7, 4) => Some("SMR")
    case (7, 8) => Some("STP")
    case (8, 2) => Some("SAU")
    case (8, 6) => Some("SEN")
    case (8, 8) => Some("SRB")
    case (9, 0) => Some("SYC")
    case (9, 4) => Some("SLE")
    case _ => None
  }

  /** The ids from 700 to 799 in the reverse table. */
  function Owner7xx(d1: int, d2: int): Option<string> {
    match (d1, d2)
    case (0, 2) => Some("SGP")
    case (0, 3) => Some("SVK")
    case (0, 4) => Some("VNM")
    case (0, 5) => Some("SVN")
    case (0, 6) => Some("SOM")
    case (1, 0) => Some("ZAF")
    case (1, 6) => Some("ZWE")
    case (2, 4) => Some("ESP")
    case (2, 8) => Some("SSD")
    case (2, 9) => Some("SDN")
    case (4, 0) => Some("SUR")
    case (4, 8) => Some("SWZ")
    case (5, 2) => Some("SWE")
    case (5, 6) => Some("CHE")
    case (6, 0) => Some("SYR")
    case (6, 2) => Some("TJK")
    case (6, 4) => Some("THA")
    case (6, 8) => Some("TGO")
    case (7, 6) => Some("TON")
    case (8, 4) => Some("ARE")
    case (8, 8) => Some("TUN")
    case (9, 2) => Some("TUR")
    case (9, 5) => Some("TKM")
    case (9, 8) => Some("TUV")
    case _ => None
  }

  /** The ids from 800 to 899 in the reverse table. */
  function Owner8xx(d1: int, d2: int): Option<string> {
    match (d1, d2)
    case (0, 0) => Some("UGA")
    case (0, 4) => Some("UKR")
    case (0, 7) => Some("MKD")
    case (1, 8) => Some("EGY")
    case (2, 6) => Some("GBR")
    case (3, 4) => Some("TZA")
    case (4, 0) => Some("USA")
    case (5, 4) => Some("BFA")
    case (5, 8) => Some("URY")
    case (6, 0) => Some("UZB")
    case (6, 2) => Some("VEN")
    case (8, 2) => Some("WSM")
    case (8, 7) => Some("YEM")
    case (9, 4) => Some("ZMB")
    case _ => None
  }

  /** `id` is a numeric id, and the reverse table gives it back to `iso`. */
  predicate OwnedBy(id: string, iso: string) {
    IsNumericId(id) && OwnerOf(id) == Some(iso)
  }

  /** Each id of the "North America" section belongs, in the reverse table, to the code that has it. */
  lemma NorthAmericaIdsOwned(iso: string)
    ensures NorthAmericaId(iso).Some? ==> OwnedBy(NorthAmericaId(iso).value, iso)
  {
    if |iso| == 3 {
      ThreeChars(iso);
    }
  }

  /** Each id of the "South America" section belongs, in the reverse table, to the code that has it. */
  lemma SouthAmericaIdsOwned(iso: string)
    ensures SouthAmericaId(iso).Some? ==> OwnedBy(SouthAmericaId(iso).value, iso)
  {
    if |iso| == 3 {
      ThreeChars(iso);
    }
  }

  /** The Europe entries whose code starts with a letter from A to B. */
  lemma EuropeIdsOwnedAB(iso: string)
    requires |iso| == 3 && 'A' <= iso[0] <= 'B'
    ensures EuropeId(iso).Some? ==> OwnedBy(EuropeId(iso).value, iso)
  {
    ThreeChars(iso);
  }

  /** The Europe entries whose code starts with a letter from C to F. */
  lemma EuropeIdsOwnedCF(iso: string)
    requires |iso| == 3 && 'C' <= iso[0] <= 'F'
    ensures EuropeId(iso).Some? ==> OwnedBy(EuropeId(iso).value, iso)
  {
    ThreeChars(iso);
  }

  /** The Europe entries whose code starts with a letter from G to I. */
  lemma EuropeIdsOwnedGI(iso: string)
    requires |iso| == 3 && 'G' <= iso[0] <= 'I'
    ensures EuropeId(iso).Some? ==> OwnedBy(EuropeId(iso).value, iso)
  {
    ThreeChars(iso);
  }

  /** The Europe entries whose code starts with a letter from J to L. */
  lemma EuropeIdsOwnedJL(iso: string)
    requires |iso| == 3 && 'J' <= iso[0] <= 'L'
    ensures EuropeId(iso).Some? ==> OwnedBy(EuropeId(iso).value, iso)
  {
    ThreeChars(iso);
  }

  /** The Europe entries whose code starts with a letter from M to N. */
  lemma EuropeIdsOwnedMN(iso: string)
    requires |iso| == 3 && 'M' <= iso[0] <= 'N'
    ensures EuropeId(iso).Some? ==> OwnedBy(EuropeId(iso).value, iso)
  {
    ThreeChars(iso);
  }

  /** The Europe entries whose code starts with a letter from O to R. */
  lemma EuropeIdsOwnedOR(iso: string)
    requires |iso| == 3 && 'O' <= iso[0] <= 'R'
    ensures EuropeId(iso).Some? ==> OwnedBy(EuropeId(iso).value, iso)
  {
    ThreeChars(iso);
  }

  /** The Europe entries whose code starts with a letter from S to Z. */
  lemma EuropeIdsOwnedSZ(iso: string)
    requires |iso| == 3 && 'S' <= iso[0] <= 'Z'
    ensures EuropeId(iso).Some? ==> OwnedBy(EuropeId(iso).value, iso)
  {
    ThreeChars(iso);
  }

  /** Each id of the "Europe" section belongs, in the reverse table, to the code that has it. */
  lemma EuropeIdsOwned(iso: string)
    ensures EuropeId(iso).Some? ==> OwnedBy(EuropeId(iso).value, iso)
  {
    if |iso| == 3 {
      if iso[0] < 'A' || 'Z' < iso[0] {
      } else if iso[0] <= 'B' {
        EuropeIdsOwnedAB(iso);
      } else if iso[0] <= 'F' {
        EuropeIdsOwnedCF(iso);
      } else if iso[0] <= 'I' {
        EuropeIdsOwnedGI(iso);
      } else if iso[0] <= 'L' {
        EuropeIdsOwnedJL(iso);
      } else if iso[0] <= 'N' {
        EuropeIdsOwnedMN(iso);
      } else if iso[0] <= 'R' {
        EuropeIdsOwnedOR(iso);
      } else {
        EuropeIdsOwnedSZ(iso);
      }
    }
  }

  /** The Africa entries whose code starts with a letter from A to B. */
  lemma AfricaIdsOwnedAB(iso: string)
    requires |iso| == 3 && 'A' <= iso[0] <= 'B'
    ensures AfricaId(iso).Some? ==> OwnedBy(AfricaId(iso).value, iso)
  {
    ThreeChars(iso);
  }

  /** The Africa entries whose code starts with C. */
  lemma AfricaIdsOwnedC(iso: string)
    requires |iso| == 3 && 'C' <= iso[0] <= 'C'
    ensures AfricaId(iso).Some? ==> OwnedBy(AfricaId(iso).value, iso)
  {
    ThreeChars(iso);
  }

  /** The Africa entries whose code starts with a letter from D to F. */
  lemma AfricaIdsOwnedDF(iso: string)
    requires |iso| == 3 && 'D' <= iso[0] <= 'F'
    ensures AfricaId(iso).Some? ==> OwnedBy(AfricaId(iso).value, iso)
  {
    ThreeChars(iso);
  }

  /** The Africa entries whose code starts with a letter from G to K. */
  lemma AfricaIdsOwnedGK(iso: string)
    requires |iso| == 3 && 'G' <= iso[0] <= 'K'
    ensures AfricaId(iso).Some? ==> OwnedBy(AfricaId(iso).value, iso)
  {
    ThreeChars(iso);
  }

  /** The Africa entries whose code starts with a letter from L to M. */
  lemma AfricaIdsOwnedLM(iso: string)
    requires |iso| == 3 && 'L' <= iso[0] <= 'M'
    ensures AfricaId(iso).Some? ==> OwnedBy(AfricaId(iso).value, iso)
  {
    ThreeChars(iso);
  }

  /** The Africa entries whose code starts with a letter from N to R. */
  lemma AfricaIdsOwnedNR(iso: string)
    requires |iso| == 3 && 'N' <= iso[0] <= 'R'
    ensures AfricaId(iso).Some? ==> OwnedBy(AfricaId(iso).value, iso)
  {
    ThreeChars(iso);
  }

  /** The Africa entries whose code starts with S. */
  lemma AfricaIdsOwnedS(iso: string)
    requires |iso| == 3 && 'S' <= iso[0] <= 'S'
    ensures AfricaId(iso).Some? ==> OwnedBy(AfricaId(iso).value, iso)
  {
    ThreeChars(iso);
  }

  /** The Africa entries whose code starts with a letter from T to Z. */
  lemma AfricaIdsOwnedTZ(iso: string)
    requires |iso| == 3 && 'T' <= iso[0] <= 'Z'
    ensures AfricaId(iso).Some? ==> OwnedBy(AfricaId(iso).value, iso)
  {
    ThreeChars(iso);
  }

  /** Each id of the "Africa" section belongs, in the reverse table, to the code that has it. */
  lemma AfricaIdsOwned(iso: string)
    ensures AfricaId(iso).Some? ==> OwnedBy(AfricaId(iso).value, iso)
  {
    if |iso| == 3 {
      if iso[0] < 'A' || 'Z' < iso[0] {
      } else if iso[0] <= 'B' {
        AfricaIdsOwnedAB(iso);
      } else if iso[0] <= 'C' {
        AfricaIdsOwnedC(iso);
      } else if iso[0] <= 'F' {
        AfricaIdsOwnedDF(iso);
      } else if iso[0] <= 'K' {
        AfricaIdsOwnedGK(iso);
      } else if iso[0] <= 'M' {
        AfricaIdsOwnedLM(iso);
      } else if iso[0] <= 'R' {
        AfricaIdsOwnedNR(iso);
      } else if iso[0] <= 'S' {
        AfricaIdsOwnedS(iso);
      } else {
        AfricaIdsOwnedTZ(iso);
      }
    }
  }

  /** The Asia entries whose code starts with a letter from A to B. */
  lemma AsiaIdsOwnedAB(iso: string)
    requires |iso| == 3 && 'A' <= iso[0] <= 'B'
    ensures AsiaId(iso).Some? ==> OwnedBy(AsiaId(iso).value, iso)
  {
    ThreeChars(iso);
  }

  /** The Asia entries whose code starts with a letter from C to I. */
  lemma AsiaIdsOwnedCI(iso: string)
    requires |iso| == 3 && 'C' <= iso[0] <= 'I'
    ensures AsiaId(iso).Some? ==> OwnedBy(AsiaId(iso).value, iso)
  {
    ThreeChars(iso);
  }

  /** The Asia entries whose code starts with a letter from J to L. */
  lemma AsiaIdsOwnedJL(iso: string)
    requires |iso| == 3 && 'J' <= iso[0] <= 'L'
    ensures AsiaId(iso).Some? ==> OwnedBy(AsiaId(iso).value, iso)
  {
    ThreeChars(iso);
  }

  /** The Asia entries whose code starts with a letter from M to P. */
  lemma AsiaIdsOwnedMP(iso: string)
    requires |iso| == 3 && 'M' <= iso[0] <= 'P'
    ensures AsiaId(iso).Some? ==> OwnedBy(AsiaId(iso).value, iso)
  {
    ThreeChars(iso);
  }

  /** The Asia entries whose code starts with a letter from Q to S. */
  lemma AsiaIdsOwnedQS(iso: string)
    requires |iso| == 3 && 'Q' <= iso[0] <= 'S'
    ensures AsiaId(iso).Some? ==> OwnedBy(AsiaId(iso).value, iso)
  {
    ThreeChars(iso);
  }

  /** The Asia entries whose code starts with a letter from T to Z. */
  lemma AsiaIdsOwnedTZ(iso: string)
    requires |iso| == 3 && 'T' <= iso[0] <= 'Z'
    ensures AsiaId(iso).Some? ==> OwnedBy(AsiaId(iso).value, iso)
  {
    ThreeChars(iso);
  }

  /** Each id of the "Asia" section belongs, in the reverse table, to the code that has it. */
  lemma AsiaIdsOwned(iso: string)
    ensures AsiaId(iso).Some? ==> OwnedBy(AsiaId(iso).value, iso)
  {
    if |iso| == 3 {
      if iso[0] < 'A' || 'Z' < iso[0] {
      } else if iso[0] <= 'B' {
        AsiaIdsOwnedAB(iso);
      } else if iso[0] <= 'I' {
        AsiaIdsOwnedCI(iso);
      } else if iso[0] <= 'L' {
        AsiaIdsOwnedJL(iso);
      } else if iso[0] <= 'P' {
        AsiaIdsOwnedMP(iso);
      } else if iso[0] <= 'S' {
        AsiaIdsOwnedQS(iso);
      } else {
        AsiaIdsOwnedTZ(iso);
      }
    }
  }

  /** Each id of the "Oceania" section belongs, in the reverse table, to the code that has it. */
  lemma OceaniaIdsOwned(iso: string)
    ensures OceaniaId(iso).Some? ==> OwnedBy(OceaniaId(iso).value, iso)
  {
    if |iso| == 3 {
      ThreeChars(iso);
    }
  }

  /** Every id of the table is three digits, and no other code of the table has it. */
  lemma MapIdOwned(iso: string)
    ensures MapId(iso).Some? ==> OwnedBy(MapId(iso).value, iso)
  {
    NorthAmericaIdsOwned(iso);
    SouthAmericaIdsOwned(iso);
    EuropeIdsOwned(iso);
    AfricaIdsOwned(iso);
    AsiaIdsOwned(iso);
    OceaniaIdsOwned(iso);
  }

  /**
   * Two different codes never get the same map id, unless one of them is itself three
   * digits: a listed code gets a numeric id that no other listed code has, and an
   * unlisted code is kept, so it cannot equal a numeric id.
   */
  lemma CodeForInjective(a: string, b: string)
    requires a != b && !IsNumericId(a) && !IsNumericId(b)
    ensures CodeFor(a) != CodeFor(b)
    ensures IsNumericId(CodeFor(a)) <==> MapId(a).Some?
  {
    MapIdOwned(a);
    MapIdOwned(b);
  }
}
