/**
 * The records the backend sends to the dashboard as JSON. Both halves of the
 * system share them: the query layer builds them, the client reads them.
 */
module Api {

  /** A calendar day, counted in days since 1970-01-01 (date parsing and ISO formatting are not modelled). */
  type Day = int

  /** 2023-12-31, the last day the backend keeps. */
  const Cutoff: Day := 19722

  /** One country of a map snapshot (`/api/map-data/{date}`). */
  datatype MapCountry = MapCountry(
    country: string,
    isoCode: string,
    cases: int,
    deaths: int,
    casesPerMillion: real,
    deathsPerMillion: real,
    severity: real)

  /** A map snapshot: the day it describes and one record per country shown. */
  datatype MapData = MapData(date: Day, countries: seq<MapCountry>)

  /** The aggregate figures of one day (`/api/global-stats`). */
  datatype GlobalStats = GlobalStats(totalCases: int, totalDeaths: int, totalCountries: nat, date: Day)
}
