/** The filter engine: five independent predicates over an alert, and the
    order-preserving filter that keeps the alerts passing all five. */
module Filters {
  import opened Optional
  import opened Alerts

  /** The named line bundles of the line filter form. */
  datatype Bundle =
    | Lines123 | Lines456 | Line7 | LinesACE | LinesBDFM
    | LineG | LinesJZ | LineL | LinesNQR | LineS

  /** The value of the line filter; `UnknownLines` keeps a name no `case` knows. */
  datatype LineFilter = AllLines | OneBundle(bundle: Bundle) | UnknownLines(name: string)

  /** The value of the severity filter; `UnknownSeverity` keeps a name no severity has. */
  datatype SeverityFilter = AllSeverities | OneSeverity(severity: Severity) | UnknownSeverity(name: string)

  /** The value of the time filter; `UnknownTime` keeps a name no `case` knows. */
  datatype TimeScope = AllTimes | ActiveNow | RushHour | Planned | UnknownTime(name: string)

  /** The value of the location filter; `UnknownArea` keeps a name no borough has. */
  datatype LocationScope = AllAreas | NearMe | InBorough(borough: Borough) | UnknownArea(name: string)

  /** The four filter form values. */
  datatype Criteria = Criteria(line: LineFilter, severity: SeverityFilter, time: TimeScope, location: LocationScope)

  /** Every form value at 'all'. */
  const DefaultCriteria: Criteria := Criteria(AllLines, AllSeverities, AllTimes, AllAreas)

  /** "Near me" means a walking distance under one mile (100 hundredths). */
  const NearMeLimit: nat := 100

  /** The line tokens each bundle's `case` lists; W belongs to the NQR bundle. */
  function BundleTokens(b: Bundle): seq<string> {
    match b
    case Lines123 => ["1", "2", "3"]
    case Lines456 => ["4", "5", "6"]
    case Line7 => ["7"]
    case LinesACE => ["A", "C", "E"]
    case LinesBDFM => ["B", "D", "F", "M"]
    case LineG => ["G"]
    case LinesJZ => ["J", "Z"]
    case LineL => ["L"]
    case LinesNQR => ["N", "Q", "R", "W"]
    case LineS => ["S"]
  }

  /** The callback handed to `some`: the `switch` on the filter name for one
      line token. 'all' is no `case` label, so it would take the default. */
  function LineCallback(f: LineFilter, line: string): bool {
    match f
    case OneBundle(b) => line in BundleTokens(b)
    case _ => false
  }

  /** `lines.some(callback)`, scanning left to right. */
  function SomeLine(lines: seq<string>, f: LineFilter): bool
    decreases |lines|
  {
    if |lines| == 0 then false
    else LineCallback(f, lines[0]) || SomeLine(lines[1..], f)
  }

  /** `matchesLineFilter`: 'all' keeps every alert; otherwise `some` line
      must be among the tokens of the selected bundle. */
  predicate MatchesLineFilter(a: Alert, f: LineFilter): (r: bool)
    ensures r <==> f.AllLines? || (f.OneBundle? && exists l :: l in a.lines && l in BundleTokens(f.bundle))
  {
    match f
    case AllLines => true
    case OneBundle(b) => SomeLineBundle(a.lines, b); SomeLine(a.lines, f)
    case UnknownLines(name) => SomeLineUnknown(a.lines, name); SomeLine(a.lines, f)
  }

  predicate MatchesSeverityFilter(a: Alert, f: SeverityFilter) {
    match f
    case AllSeverities => true
    case OneSeverity(s) => a.severity == s
    case UnknownSeverity(_) => false
  }

  /** The time filter at instant `now`. An unknown scope name takes the
      `default:` arm, which keeps every alert. */
  predicate MatchesTimeFilter(a: Alert, t: TimeScope, now: int) {
    match t
    case AllTimes => true
    case ActiveNow => a.estimatedResolution.None? || a.estimatedResolution.value > now
    case RushHour => a.isRushHour
    case Planned => a.severity == Info
    case UnknownTime(_) => true
  }

  /** The location filter; `hasLocation` says whether a location fix is
      known. 'nearme' without a fix falls through to `return true`. */
  predicate MatchesLocationFilter(a: Alert, l: LocationScope, hasLocation: bool) {
    match l
    case AllAreas => true
    case NearMe => !hasLocation || a.walkingDistance < NearMeLimit
    case InBorough(b) => a.location == b
    case UnknownArea(_) => false
  }

  predicate MatchesRushHourMode(a: Alert, rushMode: bool) {
    !rushMode || a.isRushHour
  }

  /** The conjunction the filter callback evaluates. */
  predicate Passes(a: Alert, c: Criteria, now: int, hasLocation: bool, rushMode: bool) {
    && MatchesLineFilter(a, c.line)
    && MatchesSeverityFilter(a, c.severity)
    && MatchesTimeFilter(a, c.time, now)
    && MatchesLocationFilter(a, c.location, hasLocation)
    && MatchesRushHourMode(a, rushMode)
  }

  /** `r` is `xs` with some elements deleted, the rest in their order. */
  predicate SubsequenceOf<T(==)>(r: seq<T>, xs: seq<T>)
    decreases |xs|
  {
    if |r| == 0 then true
    else if |xs| == 0 then false
    else (r[0] == xs[0] && SubsequenceOf(r[1..], xs[1..])) || SubsequenceOf(r, xs[1..])
  }

  /** `alerts.filter(...)`: the alerts that pass all five predicates. */
  function Filter(alerts: seq<Alert>, c: Criteria, now: int, hasLocation: bool, rushMode: bool): (r: seq<Alert>)
    ensures |r| <= |alerts|
    ensures forall a :: a in r <==> a in alerts && Passes(a, c, now, hasLocation, rushMode)
    decreases |alerts|
  {
    if |alerts| == 0 then []
    else if Passes(alerts[0], c, now, hasLocation, rushMode)
    then [alerts[0]] + Filter(alerts[1..], c, now, hasLocation, rushMode)
    else Filter(alerts[1..], c, now, hasLocation, rushMode)
  }

  /** The filtered list keeps input order: it is a subsequence of the input. */
  lemma {:induction false} FilterIsSubsequence(alerts: seq<Alert>, c: Criteria, now: int, hasLocation: bool, rushMode: bool)
    ensures SubsequenceOf(Filter(alerts, c, now, hasLocation, rushMode), alerts)
    decreases |alerts|
  {
    if |alerts| > 0 {
      var rest := Filter(alerts[1..], c, now, hasLocation, rushMode);
      FilterIsSubsequence(alerts[1..], c, now, hasLocation, rushMode);
      if Passes(alerts[0], c, now, hasLocation, rushMode) {
        assert ([alerts[0]] + rest)[1..] == rest;
      } else if |rest| > 0 {
        assert SubsequenceOf(rest, alerts[1..]);
      }
    }
  }

  /** Filtering a list whose every alert passes leaves it unchanged. */
  lemma {:induction false} FilterKeepsPassing(alerts: seq<Alert>, c: Criteria, now: int, hasLocation: bool, rushMode: bool)
    requires forall i :: 0 <= i < |alerts| ==> Passes(alerts[i], c, now, hasLocation, rushMode)
    ensures Filter(alerts, c, now, hasLocation, rushMode) == alerts
    decreases |alerts|
  {
    if |alerts| > 0 {
      FilterKeepsPassing(alerts[1..], c, now, hasLocation, rushMode);
      assert [alerts[0]] + alerts[1..] == alerts;
    }
  }

  /** Filtering twice with the same criteria, time, fix and mode is filtering once. */
  lemma FilterIdempotent(alerts: seq<Alert>, c: Criteria, now: int, hasLocation: bool, rushMode: bool)
    ensures Filter(Filter(alerts, c, now, hasLocation, rushMode), c, now, hasLocation, rushMode)
         == Filter(alerts, c, now, hasLocation, rushMode)
  {
    var once := Filter(alerts, c, now, hasLocation, rushMode);
    assert forall i :: 0 <= i < |once| ==> once[i] in once;
    FilterKeepsPassing(once, c, now, hasLocation, rushMode);
  }

  /** With every form value at 'all' and rush-hour mode off, nothing is filtered out. */
  lemma FilterDefaultIsIdentity(alerts: seq<Alert>, now: int, hasLocation: bool)
    ensures Filter(alerts, DefaultCriteria, now, hasLocation, false) == alerts
  {
    FilterKeepsPassing(alerts, DefaultCriteria, now, hasLocation, false);
  }

  /** Filtering a concatenation filters each part. */
  lemma {:induction false} FilterAppend(xs: seq<Alert>, ys: seq<Alert>, c: Criteria, now: int, hasLocation: bool, rushMode: bool)
    ensures Filter(xs + ys, c, now, hasLocation, rushMode)
         == Filter(xs, c, now, hasLocation, rushMode) + Filter(ys, c, now, hasLocation, rushMode)
    decreases |xs|
  {
    if |xs| > 0 {
      var zs := xs + ys;
      assert zs[0] == xs[0] && zs[1..] == xs[1..] + ys;
      FilterAppend(xs[1..], ys, c, now, hasLocation, rushMode);
      if Passes(xs[0], c, now, hasLocation, rushMode) {
        calc {
          Filter(zs, c, now, hasLocation, rushMode);
          [xs[0]] + Filter(xs[1..] + ys, c, now, hasLocation, rushMode);
          [xs[0]] + (Filter(xs[1..], c, now, hasLocation, rushMode) + Filter(ys, c, now, hasLocation, rushMode));
          ([xs[0]] + Filter(xs[1..], c, now, hasLocation, rushMode)) + Filter(ys, c, now, hasLocation, rushMode);
        }
      }
    } else {
      assert xs + ys == ys;
    }
  }

  /** A bundle keeps an alert exactly when one of its lines is among the
      bundle's tokens. */
  lemma {:induction false} SomeLineBundle(lines: seq<string>, b: Bundle)
    ensures SomeLine(lines, OneBundle(b)) <==> exists l :: l in lines && l in BundleTokens(b)
    decreases |lines|
  {
    if |lines| > 0 {
      SomeLineBundle(lines[1..], b);
      assert forall l :: l in lines <==> l == lines[0] || l in lines[1..];
    }
  }

  /** An unrecognised bundle name keeps no alert at all. */
  lemma {:induction false} SomeLineUnknown(lines: seq<string>, name: string)
    ensures !SomeLine(lines, UnknownLines(name))
    decreases |lines|
  {
    if |lines| > 0 {
      SomeLineUnknown(lines[1..], name);
    }
  }

  /** The line filter by form value: 'all' keeps everything, 'NQR' includes
      the W line, and a value no option has keeps nothing. */
  lemma LineFilterBundles(a: Alert, name: string)
    ensures MatchesLineFilter(a, ParseLineFilter("all"))
    ensures MatchesLineFilter(a, ParseLineFilter("NQR")) <==> exists l :: l in a.lines && l in {"N", "Q", "R", "W"}
    ensures MatchesLineFilter(a, ParseLineFilter("456")) <==> exists l :: l in a.lines && l in {"4", "5", "6"}
    ensures !LineOption(name) ==> !MatchesLineFilter(a, ParseLineFilter(name))
  {
    SomeLineBundle(a.lines, LinesNQR);
    SomeLineBundle(a.lines, Lines456);
    assert forall l :: l in BundleTokens(LinesNQR) <==> l in {"N", "Q", "R", "W"};
    assert forall l :: l in BundleTokens(Lines456) <==> l in {"4", "5", "6"};
    SomeLineUnknown(a.lines, name);
  }

  /** Each severity filter by form value: 'all' keeps every alert, a
      severity's value keeps the alerts of that severity, and a value that
      is not an option keeps nothing. */
  lemma SeverityFilterCases(a: Alert, s: Severity, name: string)
    ensures MatchesSeverityFilter(a, ParseSeverityFilter("all"))
    ensures MatchesSeverityFilter(a, ParseSeverityFilter(SeverityName(s))) <==> a.severity == s
    ensures !SeverityOption(name) ==> !MatchesSeverityFilter(a, ParseSeverityFilter(name))
  {
  }

  /** Each time scope by form value. A value no `case` knows keeps every
      alert. */
  lemma TimeFilterCases(a: Alert, now: int, name: string)
    ensures MatchesTimeFilter(a, ParseTimeScope("all"), now)
    ensures MatchesTimeFilter(a, ParseTimeScope("active"), now) <==>
            (a.estimatedResolution == None || exists t :: a.estimatedResolution == Some(t) && t > now)
    ensures MatchesTimeFilter(a, ParseTimeScope("rush"), now) <==> a.isRushHour
    ensures MatchesTimeFilter(a, ParseTimeScope("planned"), now) <==> a.severity == Info
    ensures !TimeOption(name) ==> MatchesTimeFilter(a, ParseTimeScope(name), now)
  {
    if a.estimatedResolution.Some? {
      var t := a.estimatedResolution.value;
      assert a.estimatedResolution == Some(t);
    }
  }

  /** Each location scope by form value. A borough's value keeps the alerts
      in that borough with or without a fix; a value no option has keeps
      nothing. */
  lemma LocationFilterCases(a: Alert, b: Borough, name: string)
    ensures MatchesLocationFilter(a, ParseLocationScope("all"), true) && MatchesLocationFilter(a, ParseLocationScope("all"), false)
    ensures MatchesLocationFilter(a, ParseLocationScope(BoroughName(b)), true) == MatchesLocationFilter(a, ParseLocationScope(BoroughName(b)), false) == (a.location == b)
    ensures MatchesLocationFilter(a, ParseLocationScope("nearme"), true) <==> a.walkingDistance < 100
    ensures MatchesLocationFilter(a, ParseLocationScope("nearme"), false)
    ensures !LocationOption(name) ==>
              !MatchesLocationFilter(a, ParseLocationScope(name), true) && !MatchesLocationFilter(a, ParseLocationScope(name), false)
  {
  }

  /** With rush-hour mode on, an alert outside rush hour is dropped whatever
      the four form values say; with it off, the mode drops nothing. */
  lemma {:induction false} RushHourModeFilter(alerts: seq<Alert>, c: Criteria, now: int, hasLocation: bool)
    ensures forall a :: a in Filter(alerts, c, now, hasLocation, true) ==> a.isRushHour
    ensures Filter(alerts, c, now, hasLocation, true)
         == Filter(Filter(alerts, c, now, hasLocation, false), DefaultCriteria, now, hasLocation, true)
    decreases |alerts|
  {
    if |alerts| > 0 {
      RushHourModeFilter(alerts[1..], c, now, hasLocation);
    }
  }

  // ----- The form values as strings, and back -----

  function ParseBundle(s: string): Option<Bundle> {
    if s == "123" then Some(Lines123)
    else if s == "456" then Some(Lines456)
    else if s == "7" then Some(Line7)
    else if s == "ACE" then Some(LinesACE)
    else if s == "BDFM" then Some(LinesBDFM)
    else if s == "G" then Some(LineG)
    else if s == "JZ" then Some(LinesJZ)
    else if s == "L" then Some(LineL)
    else if s == "NQR" then Some(LinesNQR)
    else if s == "S" then Some(LineS)
    else None
  }

  function BundleName(b: Bundle): string {
    match b
    case Lines123 => "123"
    case Lines456 => "456"
    case Line7 => "7"
    case LinesACE => "ACE"
    case LinesBDFM => "BDFM"
    case LineG => "G"
    case LinesJZ => "JZ"
    case LineL => "L"
    case LinesNQR => "NQR"
    case LineS => "S"
  }

  /** The line filter a form value selects. */
  function ParseLineFilter(s: string): (f: LineFilter)
    ensures LineFilterName(f) == s
  {
    if s == "all" then AllLines
    else match ParseBundle(s)
      case Some(b) => OneBundle(b)
      case None => UnknownLines(s)
  }

  function LineFilterName(f: LineFilter): string {
    match f
    case AllLines => "all"
    case OneBundle(b) => BundleName(b)
    case UnknownLines(name) => name
  }

  function ParseSeverity(s: string): Option<Severity> {
    if s == "critical" then Some(Critical)
    else if s == "warning" then Some(Warning)
    else if s == "info" then Some(Info)
    else None
  }

  /** The severity filter a form value selects. */
  function ParseSeverityFilter(s: string): (f: SeverityFilter)
    ensures SeverityFilterName(f) == s
  {
    if s == "all" then AllSeverities
    else match ParseSeverity(s)
      case Some(sev) => OneSeverity(sev)
      case None => UnknownSeverity(s)
  }

  function SeverityFilterName(f: SeverityFilter): string {
    match f
    case AllSeverities => "all"
    case OneSeverity(s) => SeverityName(s)
    case UnknownSeverity(name) => name
  }

  /** The time scope a form value selects. */
  function ParseTimeScope(s: string): (t: TimeScope)
    ensures TimeScopeName(t) == s
  {
    if s == "all" then AllTimes
    else if s == "active" then ActiveNow
    else if s == "rush" then RushHour
    else if s == "planned" then Planned
    else UnknownTime(s)
  }

  function TimeScopeName(t: TimeScope): string {
    match t
    case AllTimes => "all"
    case ActiveNow => "active"
    case RushHour => "rush"
    case Planned => "planned"
    case UnknownTime(name) => name
  }

  function ParseBorough(s: string): Option<Borough> {
    if s == "manhattan" then Some(Manhattan)
    else if s == "brooklyn" then Some(Brooklyn)
    else if s == "queens" then Some(Queens)
    else if s == "bronx" then Some(Bronx)
    else None
  }

  /** The location scope a form value selects. */
  function ParseLocationScope(s: string): (l: LocationScope)
    ensures LocationScopeName(l) == s
  {
    if s == "all" then AllAreas
    else if s == "nearme" then NearMe
    else match ParseBorough(s)
      case Some(b) => InBorough(b)
      case None => UnknownArea(s)
  }

  function LocationScopeName(l: LocationScope): string {
    match l
    case AllAreas => "all"
    case NearMe => "nearme"
    case InBorough(b) => BoroughName(b)
    case UnknownArea(name) => name
  }

  /** A form value the line `<select>` has an option for. */
  predicate LineOption(s: string) {
    s == "all" || ParseBundle(s).Some?
  }

  /** A form value the severity `<select>` has an option for. */
  predicate SeverityOption(s: string) {
    s == "all" || ParseSeverity(s).Some?
  }

  /** A form value the time `<select>` has an option for. */
  predicate TimeOption(s: string) {
    s == "all" || s == "active" || s == "rush" || s == "planned"
  }

  /** A form value the location `<select>` has an option for. */
  predicate LocationOption(s: string) {
    s == "all" || s == "nearme" || ParseBorough(s).Some?
  }

  /** The line filter `apply` sees after the `<select>` is set to `s`: a
      value no option has reads back as the empty string. */
  function SelectLineFilter(s: string): (f: LineFilter)
    ensures f.UnknownLines? <==> !LineOption(s)
    ensures f.UnknownLines? ==> f.name == ""
    ensures LineOption(s) ==> LineFilterName(f) == s
  {
    ParseLineFilter(if LineOption(s) then s else "")
  }

  /** The severity filter `apply` sees after the `<select>` is set to `s`. */
  function SelectSeverityFilter(s: string): (f: SeverityFilter)
    ensures f.UnknownSeverity? <==> !SeverityOption(s)
    ensures f.UnknownSeverity? ==> f.name == ""
    ensures SeverityOption(s) ==> SeverityFilterName(f) == s
  {
    ParseSeverityFilter(if SeverityOption(s) then s else "")
  }

  /** The time scope `apply` sees after the `<select>` is set to `s`. */
  function SelectTimeScope(s: string): (t: TimeScope)
    ensures t.UnknownTime? <==> !TimeOption(s)
    ensures t.UnknownTime? ==> t.name == ""
    ensures TimeOption(s) ==> TimeScopeName(t) == s
  {
    ParseTimeScope(if TimeOption(s) then s else "")
  }

  /** The location scope `apply` sees after the `<select>` is set to `s`. */
  function SelectLocationScope(s: string): (l: LocationScope)
    ensures l.UnknownArea? <==> !LocationOption(s)
    ensures l.UnknownArea? ==> l.name == ""
    ensures LocationOption(s) ==> LocationScopeName(l) == s
  {
    ParseLocationScope(if LocationOption(s) then s else "")
  }

  /** A criteria value some form value selects: an unknown case never keeps
      the name of an option. */
  predicate CanonicalCriteria(c: Criteria) {
    && (c.line.UnknownLines? ==> !LineOption(c.line.name))
    && (c.severity.UnknownSeverity? ==> !SeverityOption(c.severity.name))
    && (c.time.UnknownTime? ==> !TimeOption(c.time.name))
    && (c.location.UnknownArea? ==> !LocationOption(c.location.name))
  }

  /** Every form value is one of the options: no unknown case at all. */
  predicate KnownCriteria(c: Criteria) {
    !c.line.UnknownLines? && !c.severity.UnknownSeverity? && !c.time.UnknownTime? && !c.location.UnknownArea?
  }

  /** Canonical criteria are exactly those that survive printing each form
      value and parsing it back. */
  lemma CanonicalRoundTrip(c: Criteria)
    ensures CanonicalCriteria(c) <==>
      && ParseLineFilter(LineFilterName(c.line)) == c.line
      && ParseSeverityFilter(SeverityFilterName(c.severity)) == c.severity
      && ParseTimeScope(TimeScopeName(c.time)) == c.time
      && ParseLocationScope(LocationScopeName(c.location)) == c.location
  {
  }

  /** Every criteria value parsed from form values is canonical. */
  lemma ParsedCriteriaCanonical(line: string, severity: string, time: string, location: string)
    ensures CanonicalCriteria(Criteria(ParseLineFilter(line), ParseSeverityFilter(severity),
                                       ParseTimeScope(time), ParseLocationScope(location)))
  {
  }

  /** Known values survive the trip to a form value and back. */
  lemma KnownFiltersCanonical(b: Bundle, s: Severity, br: Borough)
    ensures ParseLineFilter(LineFilterName(OneBundle(b))) == OneBundle(b)
    ensures ParseSeverityFilter(SeverityFilterName(OneSeverity(s))) == OneSeverity(s)
    ensures ParseLocationScope(LocationScopeName(InBorough(br))) == InBorough(br)
    ensures CanonicalCriteria(DefaultCriteria)
  {
  }

  /** Criteria with no unknown case print to option values, and are
      canonical. */
  lemma KnownCriteriaOptions(c: Criteria)
    requires KnownCriteria(c)
    ensures LineOption(LineFilterName(c.line)) && SeverityOption(SeverityFilterName(c.severity))
    ensures TimeOption(TimeScopeName(c.time)) && LocationOption(LocationScopeName(c.location))
    ensures CanonicalCriteria(c)
  {
  }
}
