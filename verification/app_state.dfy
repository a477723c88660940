/** The shared application state that the filter manager, the statistics
    manager and the preference loader read and update in place. */
module App {
  import opened Optional
  import opened Alerts
  import opened Filters
  import opened Statistics
  import opened Preferences

  class AppState {
    /** Every alert currently loaded. */
    var currentAlerts: seq<Alert>
    /** The alerts the last filter run kept. */
    var filteredAlerts: seq<Alert>
    /** The four filter form values. */
    var criteria: Criteria
    /** Sound, rush-hour mode, theme, font size and language. */
    var prefs: UserPreferences
    /** Whether a location fix has been obtained. */
    var hasLocation: bool

    /** The state before anything is loaded: no alerts, every form value at
        'all', the default preferences and no location fix. */
    constructor ()
      ensures currentAlerts == [] && filteredAlerts == []
      ensures criteria == DefaultCriteria && prefs == DefaultPreferences && !hasLocation
    {
      currentAlerts := [];
      filteredAlerts := [];
      criteria := DefaultCriteria;
      prefs := DefaultPreferences;
      hasLocation := false;
    }

    /** `FilterManager.apply`: recompute the filtered alerts at instant `now`
        from the current alerts, the form values, the location fix and
        rush-hour mode. Only `filteredAlerts` changes. */
    method ApplyFilters(now: int)
      modifies this`filteredAlerts
      ensures filteredAlerts == Filter(currentAlerts, criteria, now, hasLocation, prefs.rushHourMode)
      ensures SubsequenceOf(filteredAlerts, currentAlerts)
      ensures forall a :: a in filteredAlerts <==> a in currentAlerts && Passes(a, criteria, now, hasLocation, prefs.rushHourMode)
      ensures prefs.rushHourMode ==> forall a :: a in filteredAlerts ==> a.isRushHour
      ensures criteria == DefaultCriteria && !prefs.rushHourMode ==> filteredAlerts == currentAlerts
    {
      filteredAlerts := Filter(currentAlerts, criteria, now, hasLocation, prefs.rushHourMode);
      FilterIsSubsequence(currentAlerts, criteria, now, hasLocation, prefs.rushHourMode);
      FilterDefaultIsIdentity(currentAlerts, now, hasLocation);
    }

    /** The numbers `StatisticsManager.update` shows; they are counted over
        all current alerts, not over the filtered ones. */
    method UpdateStatistics() returns (st: Stats)
      ensures st.critical == CountSeverity(currentAlerts, Critical)
      ensures st.warning == CountSeverity(currentAlerts, Warning)
      ensures st.info == CountSeverity(currentAlerts, Info)
      ensures st.rushHour == CountRushHour(currentAlerts)
      ensures st.goodService == GoodServiceLines(currentAlerts)
    {
      st := ComputeStatistics(currentAlerts);
    }

    /** The record `savePreferences` writes for the current state. */
    method SavePreferences() returns (saved: SavedPreferences)
      ensures saved == EncodePreferences(Settings(criteria, prefs))
      ensures saved.lineFilter.Some? && saved.severityFilter.Some? && saved.timeFilter.Some?
      ensures saved.locationFilter.Some? && saved.soundEnabled.Some? && saved.theme.Some?
      ensures saved.fontSize.Some? && saved.rushHourMode.Some? && saved.language.Some?
    {
      saved := EncodePreferences(Settings(criteria, prefs));
    }

    /** `loadPreferences`: `None` stands for no saved record or one that
        does not parse, and changes nothing; a record sets the form values
        and the preferences, each missing field to its default. The alerts
        and the location fix are left alone. */
    method LoadPreferences(saved: Option<SavedPreferences>)
      modifies this`criteria, this`prefs
      ensures saved.None? ==> criteria == old(criteria) && prefs == old(prefs)
      ensures saved.Some? ==> Settings(criteria, prefs) == DecodePreferences(saved.value)
      ensures saved == Some(EncodePreferences(Settings(old(criteria), old(prefs)))) && Restorable(Settings(old(criteria), old(prefs)))
              ==> criteria == old(criteria) && prefs == old(prefs)
    {
      if saved.Some? {
        var restored := DecodePreferences(saved.value);
        criteria := restored.criteria;
        prefs := restored.prefs;
        if saved == Some(EncodePreferences(Settings(old(criteria), old(prefs)))) && Restorable(Settings(old(criteria), old(prefs))) {
          DecodeEncode(Settings(old(criteria), old(prefs)));
        }
      }
    }
  }
}
