/** The saved preferences record and the rule that restores settings from it:
    every field that is missing, or falsy, falls back to its default. */
module Preferences {
  import opened Optional
  import opened Filters

  /** The record as read back from storage: any field may be missing. */
  datatype SavedPreferences = SavedPreferences(
    lineFilter: Option<string>,
    severityFilter: Option<string>,
    timeFilter: Option<string>,
    locationFilter: Option<string>,
    soundEnabled: Option<bool>,
    theme: Option<string>,
    fontSize: Option<string>,
    rushHourMode: Option<bool>,
    language: Option<string>)

  /** The user preferences of the application state, without the location fix. */
  datatype UserPreferences = UserPreferences(
    soundEnabled: bool,
    rushHourMode: bool,
    currentTheme: string,
    currentFontSize: string,
    currentLanguage: string)

  /** Everything a saved record restores: the four filter form values and
      the user preferences. */
  datatype Settings = Settings(criteria: Criteria, prefs: UserPreferences)

  const DefaultPreferences: UserPreferences := UserPreferences(false, false, "light", "normal", "en")

  const DefaultSettings: Settings := Settings(DefaultCriteria, DefaultPreferences)

  /** A record with every field missing. */
  const NothingSaved: SavedPreferences := SavedPreferences(None, None, None, None, None, None, None, None, None)

  /** `value || fallback` on a string: a missing or empty string is falsy. */
  function OrString(v: Option<string>, fallback: string): string {
    match v
    case Some(s) => if s != "" then s else fallback
    case None => fallback
  }

  /** `value || false` on a boolean. */
  function OrFalse(v: Option<bool>): bool {
    v == Some(true)
  }

  /** The settings a saved record restores. Each filter `<select>` is set
      to the saved value or 'all'; a value it has no option for reads back
      as the empty string. */
  function DecodePreferences(p: SavedPreferences): (s: Settings)
    ensures p.lineFilter.None? ==> s.criteria.line == AllLines
    ensures p.severityFilter.None? ==> s.criteria.severity == AllSeverities
    ensures p.timeFilter.None? ==> s.criteria.time == AllTimes
    ensures p.locationFilter.None? ==> s.criteria.location == AllAreas
    ensures p.soundEnabled.None? ==> !s.prefs.soundEnabled
    ensures p.rushHourMode.None? ==> !s.prefs.rushHourMode
    ensures p.theme.None? ==> s.prefs.currentTheme == "light"
    ensures p.fontSize.None? ==> s.prefs.currentFontSize == "normal"
    ensures p.language.None? ==> s.prefs.currentLanguage == "en"
    ensures p.theme.Some? && p.theme.value != "" ==> s.prefs.currentTheme == p.theme.value
    ensures p.fontSize.Some? && p.fontSize.value != "" ==> s.prefs.currentFontSize == p.fontSize.value
    ensures p.language.Some? && p.language.value != "" ==> s.prefs.currentLanguage == p.language.value
    ensures s.prefs.currentTheme != "" && s.prefs.currentFontSize != "" && s.prefs.currentLanguage != ""
    ensures s.prefs.soundEnabled <==> p.soundEnabled == Some(true)
    ensures s.prefs.rushHourMode <==> p.rushHourMode == Some(true)
    ensures p.lineFilter.Some? && LineOption(p.lineFilter.value) ==> LineFilterName(s.criteria.line) == p.lineFilter.value
    ensures p.severityFilter.Some? && SeverityOption(p.severityFilter.value) ==> SeverityFilterName(s.criteria.severity) == p.severityFilter.value
    ensures p.timeFilter.Some? && TimeOption(p.timeFilter.value) ==> TimeScopeName(s.criteria.time) == p.timeFilter.value
    ensures p.locationFilter.Some? && LocationOption(p.locationFilter.value) ==> LocationScopeName(s.criteria.location) == p.locationFilter.value
    ensures p.lineFilter.Some? && p.lineFilter.value != "" && !LineOption(p.lineFilter.value) ==> s.criteria.line == UnknownLines("")
    ensures p.severityFilter.Some? && p.severityFilter.value != "" && !SeverityOption(p.severityFilter.value) ==> s.criteria.severity == UnknownSeverity("")
    ensures p.timeFilter.Some? && p.timeFilter.value != "" && !TimeOption(p.timeFilter.value) ==> s.criteria.time == UnknownTime("")
    ensures p.locationFilter.Some? && p.locationFilter.value != "" && !LocationOption(p.locationFilter.value) ==> s.criteria.location == UnknownArea("")
    ensures s.criteria.line.UnknownLines? ==> s.criteria.line.name == ""
    ensures s.criteria.severity.UnknownSeverity? ==> s.criteria.severity.name == ""
    ensures s.criteria.time.UnknownTime? ==> s.criteria.time.name == ""
    ensures s.criteria.location.UnknownArea? ==> s.criteria.location.name == ""
  {
    Settings(
      Criteria(
        SelectLineFilter(OrString(p.lineFilter, "all")),
        SelectSeverityFilter(OrString(p.severityFilter, "all")),
        SelectTimeScope(OrString(p.timeFilter, "all")),
        SelectLocationScope(OrString(p.locationFilter, "all"))),
      UserPreferences(
        OrFalse(p.soundEnabled),
        OrFalse(p.rushHourMode),
        OrString(p.theme, "light"),
        OrString(p.fontSize, "normal"),
        OrString(p.language, "en")))
  }

  /** The record `savePreferences` writes, every field present. */
  function EncodePreferences(s: Settings): (p: SavedPreferences)
    ensures p.lineFilter.Some? && p.severityFilter.Some? && p.timeFilter.Some? && p.locationFilter.Some?
    ensures p.soundEnabled.Some? && p.theme.Some? && p.fontSize.Some? && p.rushHourMode.Some? && p.language.Some?
  {
    SavedPreferences(
      Some(LineFilterName(s.criteria.line)),
      Some(SeverityFilterName(s.criteria.severity)),
      Some(TimeScopeName(s.criteria.time)),
      Some(LocationScopeName(s.criteria.location)),
      Some(s.prefs.soundEnabled),
      Some(s.prefs.currentTheme),
      Some(s.prefs.currentFontSize),
      Some(s.prefs.rushHourMode),
      Some(s.prefs.currentLanguage))
  }

  /** Settings a save and a load reproduce: every form value one of the
      options, and no string that reads as falsy. */
  predicate Restorable(s: Settings) {
    && KnownCriteria(s.criteria)
    && s.prefs.currentTheme != ""
    && s.prefs.currentFontSize != ""
    && s.prefs.currentLanguage != ""
  }

  /** A record with nothing in it restores the defaults. */
  lemma NothingSavedGivesDefaults()
    ensures DecodePreferences(NothingSaved) == DefaultSettings
  {
  }

  /** An empty string is as good as a missing field. */
  lemma EmptyStringIsMissing(p: SavedPreferences)
    ensures DecodePreferences(p.(theme := Some(""))) == DecodePreferences(p.(theme := None))
    ensures DecodePreferences(p.(lineFilter := Some(""))) == DecodePreferences(p.(lineFilter := None))
    ensures DecodePreferences(p.(language := Some(""))) == DecodePreferences(p.(language := None))
    ensures DecodePreferences(p.(severityFilter := Some(""))) == DecodePreferences(p.(severityFilter := None))
    ensures DecodePreferences(p.(timeFilter := Some(""))) == DecodePreferences(p.(timeFilter := None))
    ensures DecodePreferences(p.(locationFilter := Some(""))) == DecodePreferences(p.(locationFilter := None))
    ensures DecodePreferences(p.(fontSize := Some(""))) == DecodePreferences(p.(fontSize := None))
  {
  }

  /** Saving and then loading restores what was saved. */
  lemma DecodeEncode(s: Settings)
    requires Restorable(s)
    ensures DecodePreferences(EncodePreferences(s)) == s
  {
    KnownCriteriaOptions(s.criteria);
  }

  /** Loaded settings whose four form values are options can be saved and
      reloaded unchanged. */
  lemma ReloadIsStable(p: SavedPreferences)
    requires KnownCriteria(DecodePreferences(p).criteria)
    ensures Restorable(DecodePreferences(p))
    ensures DecodePreferences(EncodePreferences(DecodePreferences(p))) == DecodePreferences(p)
  {
    DecodeEncode(DecodePreferences(p));
  }

  /** A saved filter value no option has loads as the empty read-back; saving
      that and loading again gives 'all'. After that one round every later
      save and load is stable. */
  lemma UnknownFilterResets(p: SavedPreferences)
    ensures var s := DecodePreferences(EncodePreferences(DecodePreferences(p)));
      && (DecodePreferences(p).criteria.line.UnknownLines? ==> s.criteria.line == AllLines)
      && (DecodePreferences(p).criteria.severity.UnknownSeverity? ==> s.criteria.severity == AllSeverities)
      && (DecodePreferences(p).criteria.time.UnknownTime? ==> s.criteria.time == AllTimes)
      && (DecodePreferences(p).criteria.location.UnknownArea? ==> s.criteria.location == AllAreas)
    ensures Restorable(DecodePreferences(EncodePreferences(DecodePreferences(p))))
  {
  }
}
