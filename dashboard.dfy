/**
 * The module-level state of static/js/dashboard.js and the handlers that
 * change it: `loadDates`, the date picker, the prev/next buttons,
 * `updateButtonStates`, `loadMapData` and `updateMap`.
 *
 * Every `await fetchWithError(...)` becomes a parameter carrying what that
 * request produced (`Err` when it threw). A handler's synchronous part, the
 * `loadMapData` it awaits and the `updateButtonStates` listener registered
 * after it are run one after the other, and each handler finishes before the
 * next event is handled. When one handler runs at a time this order ends in
 * the same state as the event loop's, because `loadMapData` only ever sets
 * `currentDate` to the date it was called with, and every caller passes the
 * current date. Handlers that overlap, with replies arriving out of order,
 * can leave the map on one date while the picker and buttons show another;
 * `Valid` does not hold of the program then, and the model does not cover it.
 */
module Dashboard {
  import opened Wrappers
  import opened Api
  import opened Timeline

  /** The banner `loadMapData` leaves after any failure. */
  const MapLoadFailed: string := "Failed to load map data"

  /** The banner `loadDates` leaves when the date list cannot be fetched. */
  const TimelineLoadFailed: string := "Failed to load timeline data"

  /**
   * Whether `loadMapData(date)` gets as far as storing the snapshot: the date
   * is defined (`new Date(undefined).toISOString()` throws), the date list was
   * fetched, the date is in it, and the snapshot was fetched. When the date is
   * missing from the list the nearest date is computed, but assigning it to the
   * `const formattedDate` throws a TypeError, so that path fails as well.
   */
  predicate MapLoadSucceeds(date: Option<Day>, available: Result<seq<Day>>, mapReply: Result<MapData>) {
    date.Some? && available.Ok? && date.value in available.value && mapReply.Ok?
  }

  /** Whether `loadMapData(date)` also gets as far as writing the statistics panel. */
  predicate StatsShown(date: Option<Day>, available: Result<seq<Day>>, mapReply: Result<MapData>,
                       statsReply: Result<GlobalStats>) {
    MapLoadSucceeds(date, available, mapReply) && statsReply.Ok?
  }

  class Dashboard {
    /** `dates`: the timeline, as fetched from `/api/timeseries`. */
    var dates: seq<Day>
    /** `currentDate`; `None` is `undefined`. */
    var currentDate: Option<Day>
    /** `currentMapData`; `None` is `null`. */
    var currentMapData: Option<MapData>
    /** The date picker's value. */
    var pickerValue: Option<Day>
    var prevDisabled: bool
    var nextDisabled: bool
    /** Whether `loadDates` has attached the picker and button listeners. */
    var controlsWired: bool
    /** The figures and date last written to the statistics panel. */
    var shownStats: Option<GlobalStats>
    var shownDate: Option<Day>
    /** The text of the error banner; `None` while none was shown. */
    var banner: Option<string>

    /**
     * The current date is always one of the dates, once the controls are
     * wired and the list is not empty, and the buttons reflect it.
     */
    ghost predicate Valid()
      reads this
    {
      && (currentDate.Some? ==> currentDate.value in dates)
      && (controlsWired && dates != [] ==> currentDate.Some?)
      && (controlsWired ==> (prevDisabled, nextDisabled) == ButtonStates(dates, currentDate))
    }

    /** The state the script starts in (lines 2-3). */
    constructor ()
      ensures Valid()
      ensures dates == [] && currentDate.None? && currentMapData.None? && pickerValue.None?
      ensures !controlsWired && !prevDisabled && !nextDisabled
      ensures shownStats.None? && shownDate.None? && banner.None?
    {
      dates := [];
      currentDate := None;
      currentMapData := None;
      pickerValue := None;
      prevDisabled, nextDisabled := false, false;
      controlsWired := false;
      shownStats, shownDate := None, None;
      banner := None;
    }

    /** `updateMap(data)`: the snapshot becomes the current one; the fills follow from it (`SeverityScale.FeatureFill`). */
    method UpdateMap(data: MapData)
      modifies this
      ensures currentMapData == Some(data)
      ensures dates == old(dates) && currentDate == old(currentDate) && pickerValue == old(pickerValue)
      ensures prevDisabled == old(prevDisabled) && nextDisabled == old(nextDisabled)
      ensures controlsWired == old(controlsWired) && shownStats == old(shownStats)
      ensures shownDate == old(shownDate) && banner == old(banner)
    {
      currentMapData := Some(data);
    }

    /**
     * `loadMapData(date)`. `available` is the second fetch of the date list,
     * `mapReply` the snapshot and `statsReply` the global figures. On success
     * the snapshot and the date become current; on any failure both stay as
     * they were and the banner reports it.
     */
    method LoadMapData(date: Option<Day>, available: Result<seq<Day>>,
                       mapReply: Result<MapData>, statsReply: Result<GlobalStats>)
      modifies this
      ensures MapLoadSucceeds(date, available, mapReply) ==>
                currentMapData == Some(mapReply.value) && currentDate == date
      ensures !MapLoadSucceeds(date, available, mapReply) ==>
                currentMapData == old(currentMapData) && currentDate == old(currentDate)
      ensures MapLoadSucceeds(date, available, mapReply) && statsReply.Ok? ==>
                shownStats == Some(statsReply.value) && shownDate == date && banner == old(banner)
      ensures !(MapLoadSucceeds(date, available, mapReply) && statsReply.Ok?) ==>
                shownStats == old(shownStats) && shownDate == old(shownDate) && banner == Some(MapLoadFailed)
      ensures dates == old(dates) && pickerValue == old(pickerValue) && controlsWired == old(controlsWired)
      ensures prevDisabled == old(prevDisabled) && nextDisabled == old(nextDisabled)
    {
      if date.None? {
        // new Date(undefined).toISOString() throws a RangeError
        banner := Some(MapLoadFailed);
        return;
      }
      var formattedDate := date.value;
      if available.Err? {
        banner := Some(MapLoadFailed);
        return;
      }
      if formattedDate !in available.value {
        if available.value == [] {
          // reduce of an empty array with no initial value throws a TypeError
          banner := Some(MapLoadFailed);
          return;
        }
        var closestDate := ClosestDate(available.value, formattedDate);
        // `formattedDate = closestDate` assigns to a constant: a TypeError
        banner := Some(MapLoadFailed);
        return;
      }
      if mapReply.Err? {
        banner := Some(MapLoadFailed);
        return;
      }
      currentMapData := Some(mapReply.value);
      currentDate := Some(formattedDate);
      UpdateMap(mapReply.value);
      if statsReply.Err? {
        banner := Some(MapLoadFailed);
        return;
      }
      shownStats := Some(statsReply.value);
      shownDate := Some(formattedDate);
    }

    /** `updateButtonStates()`. */
    method UpdateButtonStates()
      modifies this
      ensures (prevDisabled, nextDisabled) == ButtonStates(dates, currentDate)
      ensures dates == old(dates) && currentDate == old(currentDate) && currentMapData == old(currentMapData)
      ensures pickerValue == old(pickerValue) && controlsWired == old(controlsWired)
      ensures shownStats == old(shownStats) && shownDate == old(shownDate) && banner == old(banner)
    {
      var currentIndex := IndexOf(dates, currentDate);
      prevDisabled := currentIndex == 0;
      nextDisabled := currentIndex == |dates| - 1;
    }

    /**
     * `loadDates()`: `reply` is the fetched date list. The last date becomes
     * current (undefined for an empty list), its snapshot is loaded, and the
     * controls are wired and their states set.
     */
    method LoadDates(reply: Result<seq<Day>>, available: Result<seq<Day>>,
                     mapReply: Result<MapData>, statsReply: Result<GlobalStats>)
      requires Valid()
      modifies this
      ensures Valid()
      ensures reply.Err? ==> dates == old(dates) && currentDate == old(currentDate) && controlsWired == old(controlsWired)
      ensures reply.Err? ==> currentMapData == old(currentMapData) && banner == Some(TimelineLoadFailed)
      ensures reply.Err? ==> pickerValue == old(pickerValue) && prevDisabled == old(prevDisabled) && nextDisabled == old(nextDisabled)
      ensures reply.Err? ==> shownStats == old(shownStats) && shownDate == old(shownDate)
      ensures reply.Ok? ==> dates == reply.value && controlsWired
      ensures reply.Ok? ==> currentDate == (if reply.value == [] then None else Some(reply.value[|reply.value| - 1]))
      ensures reply.Ok? ==> pickerValue == currentDate
      ensures reply.Ok? && MapLoadSucceeds(currentDate, available, mapReply) ==> currentMapData == Some(mapReply.value)
      ensures reply.Ok? && !MapLoadSucceeds(currentDate, available, mapReply) ==> currentMapData == old(currentMapData)
      ensures reply.Ok? && StatsShown(currentDate, available, mapReply, statsReply) ==>
                shownStats == Some(statsReply.value) && shownDate == currentDate && banner == old(banner)
      ensures reply.Ok? && !StatsShown(currentDate, available, mapReply, statsReply) ==>
                shownStats == old(shownStats) && shownDate == old(shownDate) && banner == Some(MapLoadFailed)
      ensures reply.Ok? ==> (prevDisabled, nextDisabled) == ButtonStates(dates, currentDate)
    {
      if reply.Err? {
        banner := Some(TimelineLoadFailed);
        return;
      }
      dates := reply.value;
      currentDate := if dates == [] then None else Some(dates[|dates| - 1]);
      pickerValue := currentDate;
      LoadMapData(currentDate, available, mapReply, statsReply);
      controlsWired := true;
      UpdateButtonStates();
    }

    /**
     * The picker's `change` listeners: the chosen date becomes current only if
     * it is one of the dates; the buttons are then refreshed.
     */
    method PickDate(selected: Day, available: Result<seq<Day>>,
                    mapReply: Result<MapData>, statsReply: Result<GlobalStats>)
      requires Valid()
      modifies this
      ensures Valid()
      ensures dates == old(dates) && controlsWired == old(controlsWired) && pickerValue == Some(selected)
      ensures !old(controlsWired) || selected !in dates ==>
                currentDate == old(currentDate) && currentMapData == old(currentMapData)
      ensures old(controlsWired) && selected in dates ==> currentDate == Some(selected)
      ensures old(controlsWired) && selected in dates && MapLoadSucceeds(Some(selected), available, mapReply) ==>
                currentMapData == Some(mapReply.value)
      ensures old(controlsWired) && selected in dates && !MapLoadSucceeds(Some(selected), available, mapReply) ==>
                currentMapData == old(currentMapData)
      ensures !old(controlsWired) || selected !in dates ==>
                && prevDisabled == old(prevDisabled) && nextDisabled == old(nextDisabled)
                && shownStats == old(shownStats) && shownDate == old(shownDate) && banner == old(banner)
      ensures old(controlsWired) && selected in dates && StatsShown(Some(selected), available, mapReply, statsReply) ==>
                shownStats == Some(statsReply.value) && shownDate == Some(selected) && banner == old(banner)
      ensures old(controlsWired) && selected in dates && !StatsShown(Some(selected), available, mapReply, statsReply) ==>
                shownStats == old(shownStats) && shownDate == old(shownDate) && banner == Some(MapLoadFailed)
    {
      pickerValue := Some(selected);
      if !controlsWired {
        return;
      }
      if selected in dates {
        currentDate := Some(selected);
        LoadMapData(currentDate, available, mapReply, statsReply);
      }
      UpdateButtonStates();
    }

    /** The prev button's `click` listeners: one date back, unless already on the first. */
    method Prev(available: Result<seq<Day>>, mapReply: Result<MapData>, statsReply: Result<GlobalStats>)
      requires Valid()
      modifies this
      ensures Valid()
      ensures dates == old(dates) && controlsWired == old(controlsWired)
      ensures var i := IndexOf(old(dates), old(currentDate));
              old(controlsWired) && i > 0 ==> currentDate == Some(dates[i - 1]) && pickerValue == currentDate
      ensures var i := IndexOf(old(dates), old(currentDate));
              !(old(controlsWired) && i > 0) ==>
                currentDate == old(currentDate) && pickerValue == old(pickerValue) && currentMapData == old(currentMapData)
      ensures var i := IndexOf(old(dates), old(currentDate));
              !(old(controlsWired) && i > 0) ==>
                && prevDisabled == old(prevDisabled) && nextDisabled == old(nextDisabled)
                && shownStats == old(shownStats) && shownDate == old(shownDate) && banner == old(banner)
      ensures var i := IndexOf(old(dates), old(currentDate));
              old(controlsWired) && i > 0 && StatsShown(currentDate, available, mapReply, statsReply) ==>
                shownStats == Some(statsReply.value) && shownDate == currentDate && banner == old(banner)
      ensures var i := IndexOf(old(dates), old(currentDate));
              old(controlsWired) && i > 0 && !StatsShown(currentDate, available, mapReply, statsReply) ==>
                shownStats == old(shownStats) && shownDate == old(shownDate) && banner == Some(MapLoadFailed)
      ensures var i := IndexOf(old(dates), old(currentDate));
              old(controlsWired) && i > 0 ==>
                currentMapData == (if MapLoadSucceeds(currentDate, available, mapReply) then Some(mapReply.value)
                                   else old(currentMapData))
    {
      if !controlsWired {
        return;
      }
      var currentIndex := IndexOf(dates, currentDate);
      if currentIndex > 0 {
        currentDate := Some(dates[currentIndex - 1]);
        pickerValue := currentDate;
        LoadMapData(currentDate, available, mapReply, statsReply);
      }
      UpdateButtonStates();
    }

    /** The next button's `click` listeners: one date forward, unless already on the last. */
    method Next(available: Result<seq<Day>>, mapReply: Result<MapData>, statsReply: Result<GlobalStats>)
      requires Valid()
      modifies this
      ensures Valid()
      ensures dates == old(dates) && controlsWired == old(controlsWired)
      ensures var i := IndexOf(old(dates), old(currentDate));
              old(controlsWired) && i < |dates| - 1 ==> currentDate == Some(dates[i + 1]) && pickerValue == currentDate
      ensures var i := IndexOf(old(dates), old(currentDate));
              !(old(controlsWired) && i < |dates| - 1) ==>
                currentDate == old(currentDate) && pickerValue == old(pickerValue) && currentMapData == old(currentMapData)
      ensures var i := IndexOf(old(dates), old(currentDate));
              !(old(controlsWired) && i < |dates| - 1) ==>
                && prevDisabled == old(prevDisabled) && nextDisabled == old(nextDisabled)
                && shownStats == old(shownStats) && shownDate == old(shownDate) && banner == old(banner)
      ensures var i := IndexOf(old(dates), old(currentDate));
              old(controlsWired) && i < |dates| - 1 && StatsShown(currentDate, available, mapReply, statsReply) ==>
                shownStats == Some(statsReply.value) && shownDate == currentDate && banner == old(banner)
      ensures var i := IndexOf(old(dates), old(currentDate));
              old(controlsWired) && i < |dates| - 1 && !StatsShown(currentDate, available, mapReply, statsReply) ==>
                shownStats == old(shownStats) && shownDate == old(shownDate) && banner == Some(MapLoadFailed)
      ensures var i := IndexOf(old(dates), old(currentDate));
              old(controlsWired) && i < |dates| - 1 ==>
                currentMapData == (if MapLoadSucceeds(currentDate, available, mapReply) then Some(mapReply.value)
                                   else old(currentMapData))
    {
      if !controlsWired {
        return;
      }
      var currentIndex := IndexOf(dates, currentDate);
      if currentIndex < |dates| - 1 {
        currentDate := Some(dates[currentIndex + 1]);
        pickerValue := currentDate;
        LoadMapData(currentDate, available, mapReply, statsReply);
      }
      UpdateButtonStates();
    }
  }
}
