/** The dashboard statistics: alerts per severity, rush-hour alerts, and the
    lines of the catalog no critical alert names. */
module Statistics {
  import opened Alerts
  import opened Filters

  /** The five numbers the statistics panel shows. */
  datatype Stats = Stats(critical: nat, warning: nat, info: nat, rushHour: nat, goodService: int)

  /** `alerts.filter(a => a.severity === s).length`. */
  function CountSeverity(alerts: seq<Alert>, s: Severity): (n: nat)
    ensures n <= |alerts|
    ensures n == 0 <==> forall i :: 0 <= i < |alerts| ==> alerts[i].severity != s
    decreases |alerts|
  {
    if |alerts| == 0 then 0
    else (if alerts[0].severity == s then 1 else 0) + CountSeverity(alerts[1..], s)
  }

  /** `alerts.filter(a => a.isRushHour).length`. */
  function CountRushHour(alerts: seq<Alert>): (n: nat)
    ensures n <= |alerts|
    ensures n == |alerts| <==> forall i :: 0 <= i < |alerts| ==> alerts[i].isRushHour
    decreases |alerts|
  {
    if |alerts| == 0 then 0
    else (if alerts[0].isRushHour then 1 else 0) + CountRushHour(alerts[1..])
  }

  /** The distinct lines named by critical alerts. */
  ghost function CriticalLines(alerts: seq<Alert>): set<string> {
    set a, l | a in alerts && a.severity == Critical && l in a.lines :: l
  }

  /** The size of the line catalog minus the lines with a critical alert. */
  ghost function GoodServiceLines(alerts: seq<Alert>): int {
    |LineCatalog| - |CriticalLines(alerts)|
  }

  /** Every alert has one of the three severities, so the three counts
      add up to the number of alerts. */
  lemma {:induction false} SeverityCountsCoverAll(alerts: seq<Alert>)
    ensures CountSeverity(alerts, Critical) + CountSeverity(alerts, Warning) + CountSeverity(alerts, Info) == |alerts|
    decreases |alerts|
  {
    if |alerts| > 0 {
      SeverityCountsCoverAll(alerts[1..]);
    }
  }

  /** A severity count is the size of what the filter engine keeps when only
      the severity filter is set. */
  lemma {:induction false} CountSeverityIsFilterSize(alerts: seq<Alert>, s: Severity, now: int, hasLocation: bool)
    ensures CountSeverity(alerts, s)
         == |Filter(alerts, Criteria(AllLines, OneSeverity(s), AllTimes, AllAreas), now, hasLocation, false)|
    decreases |alerts|
  {
    if |alerts| > 0 {
      CountSeverityIsFilterSize(alerts[1..], s, now, hasLocation);
    }
  }

  /** The rush-hour count is the size of what rush-hour mode keeps. */
  lemma {:induction false} CountRushHourIsFilterSize(alerts: seq<Alert>, now: int, hasLocation: bool)
    ensures CountRushHour(alerts) == |Filter(alerts, DefaultCriteria, now, hasLocation, true)|
    decreases |alerts|
  {
    if |alerts| > 0 {
      CountRushHourIsFilterSize(alerts[1..], now, hasLocation);
    }
  }

  /** A sequence has at least as many positions as distinct elements. */
  lemma {:induction false} DistinctAtMostLength(s: seq<string>)
    ensures |set x | x in s| <= |s|
    decreases |s|
  {
    if |s| > 0 {
      DistinctAtMostLength(s[1..]);
      assert (set x | x in s) == (set x | x in s[1..]) + {s[0]};
    }
  }

  /** A subset is no larger than its superset. */
  lemma {:induction false} SubsetAtMost(a: set<string>, b: set<string>)
    requires a <= b
    ensures |a| <= |b|
    decreases |b|
  {
    if b != {} {
      var x :| x in b;
      SubsetAtMost(a - {x}, b - {x});
    }
  }

  /** When critical alerts only name catalog lines, the good-service count
      lies between 0 and the 23 lines of the catalog. */
  lemma GoodServiceBounds(alerts: seq<Alert>)
    requires forall a, l :: a in alerts && a.severity == Critical && l in a.lines ==> l in LineCatalog
    ensures 0 <= GoodServiceLines(alerts) <= 23
  {
    SubsetAtMost(CriticalLines(alerts), set x | x in LineCatalog);
    DistinctAtMostLength(LineCatalog);
  }

  /** A sequence without repeats has as many distinct elements as positions. */
  lemma {:induction false} DistinctIsLength(s: seq<string>)
    requires forall i, j :: 0 <= i < j < |s| ==> s[i] != s[j]
    ensures |set x | x in s| == |s|
    decreases |s|
  {
    if |s| > 0 {
      DistinctIsLength(s[1..]);
      assert (set x | x in s) == (set x | x in s[1..]) + {s[0]};
      assert s[0] !in s[1..];
    }
  }

  /** The catalog lists 23 different lines. */
  lemma CatalogSize()
    ensures |set x | x in LineCatalog| == 23
  {
    DistinctIsLength(LineCatalog);
  }

  /** When critical alerts only name catalog lines, the good-service count
      is the number of catalog lines that no critical alert names. */
  lemma GoodServiceIsCatalogCount(alerts: seq<Alert>)
    requires forall a, l :: a in alerts && a.severity == Critical && l in a.lines ==> l in LineCatalog
    ensures GoodServiceLines(alerts) == |(set x | x in LineCatalog) - CriticalLines(alerts)|
  {
    var catalog, critical := (set x | x in LineCatalog), CriticalLines(alerts);
    assert critical <= catalog;
    assert (catalog - critical) + critical == catalog;
    assert (catalog - critical) * critical == {};
    CatalogSize();
  }

  /** The `forEach` that adds every line of every critical alert to the
      set of lines with issues. */
  method CollectLinesWithIssues(alerts: seq<Alert>) returns (linesWithIssues: set<string>)
    ensures linesWithIssues == CriticalLines(alerts)
  {
    linesWithIssues := {};
    var i := 0;
    while i < |alerts|
      invariant 0 <= i <= |alerts|
      invariant linesWithIssues == CriticalLines(alerts[..i])
    {
      var alert := alerts[i];
      if alert.severity == Critical {
        var j := 0;
        while j < |alert.lines|
          invariant 0 <= j <= |alert.lines|
          invariant linesWithIssues == CriticalLines(alerts[..i]) + set l | l in alert.lines[..j]
        {
          linesWithIssues := linesWithIssues + {alert.lines[j]};
          assert alert.lines[..j + 1] == alert.lines[..j] + [alert.lines[j]];
          j := j + 1;
        }
        assert alert.lines[..j] == alert.lines;
      }
      assert alerts[..i + 1] == alerts[..i] + [alert];
      i := i + 1;
    }
    assert alerts[..i] == alerts;
  }

  /** The numbers `update` writes to the statistics panel. */
  method ComputeStatistics(alerts: seq<Alert>) returns (st: Stats)
    ensures st.critical == CountSeverity(alerts, Critical)
    ensures st.warning == CountSeverity(alerts, Warning)
    ensures st.info == CountSeverity(alerts, Info)
    ensures st.rushHour == CountRushHour(alerts)
    ensures st.goodService == GoodServiceLines(alerts)
    ensures st.critical + st.warning + st.info == |alerts| && st.rushHour <= |alerts|
  {
    var linesWithIssues := CollectLinesWithIssues(alerts);
    var totalLines := |LineCatalog|;
    SeverityCountsCoverAll(alerts);
    st := Stats(CountSeverity(alerts, Critical), CountSeverity(alerts, Warning), CountSeverity(alerts, Info),
                CountRushHour(alerts), totalLines - |linesWithIssues|);
  }

  /** The six simulated alerts all pass the default criteria. */
  lemma SampleAllPass(loadedAt: int, hasLocation: bool)
    ensures Filter(SampleAlerts(loadedAt), DefaultCriteria, loadedAt, hasLocation, false) == SampleAlerts(loadedAt)
  {
    FilterDefaultIsIdentity(SampleAlerts(loadedAt), loadedAt, hasLocation);
  }

  /** One sample alert is critical and three are in rush hour. */
  lemma SampleCounts(loadedAt: int)
    ensures CountSeverity(SampleAlerts(loadedAt), Critical) == 1
    ensures CountRushHour(SampleAlerts(loadedAt)) == 3
  {
    var s := SampleAlerts(loadedAt);
    assert CountSeverity(s[5..], Critical) == 0 && CountRushHour(s[5..]) == 0;
    assert CountSeverity(s[4..], Critical) == 0 && CountRushHour(s[4..]) == 1 by { assert s[4..][1..] == s[5..]; }
    assert CountSeverity(s[3..], Critical) == 0 && CountRushHour(s[3..]) == 1 by { assert s[3..][1..] == s[4..]; }
    assert CountSeverity(s[2..], Critical) == 0 && CountRushHour(s[2..]) == 2 by { assert s[2..][1..] == s[3..]; }
    assert CountSeverity(s[1..], Critical) == 0 && CountRushHour(s[1..]) == 2 by { assert s[1..][1..] == s[2..]; }
  }

  /** The one critical sample alert names lines 4, 5 and 6, which leaves 20
      lines of the catalog in good service. */
  lemma SampleGoodService(loadedAt: int)
    ensures GoodServiceLines(SampleAlerts(loadedAt)) == 20
  {
    var s := SampleAlerts(loadedAt);
    assert CriticalLines(s) == {"4", "5", "6"} by {
      forall l | l in CriticalLines(s) ensures l in {"4", "5", "6"} {
        var a :| a in s && a.severity == Critical && l in a.lines;
      }
      assert "4" in s[0].lines && "5" in s[0].lines && "6" in s[0].lines;
    }
    assert |{"4", "5", "6"}| == 3;
  }

  /** Lines N and Q pass the NQR bundle and not the 456 one. */
  lemma SampleLineFilters(loadedAt: int)
    ensures MatchesLineFilter(SampleAlerts(loadedAt)[2], ParseLineFilter("NQR"))
    ensures !MatchesLineFilter(SampleAlerts(loadedAt)[2], ParseLineFilter("456"))
  {
    var a := SampleAlerts(loadedAt)[2];
    assert a.lines == ["N", "Q"];
    assert "N" in a.lines && "N" in BundleTokens(LinesNQR);
  }

  /** Past the earliest resolution time, the 'active' scope drops the two
      alerts resolved by then. */
  lemma SampleActiveFilter(loadedAt: int, hasLocation: bool)
    ensures Filter(SampleAlerts(loadedAt), Criteria(AllLines, AllSeverities, ActiveNow, AllAreas), loadedAt + 1800000, hasLocation, false)
         == SampleAlerts(loadedAt)[..4]
  {
    var s := SampleAlerts(loadedAt);
    var c := Criteria(AllLines, AllSeverities, ActiveNow, AllAreas);
    var now := loadedAt + 1800000;
    assert Filter(s[4..], c, now, hasLocation, false) == [];
    FilterKeepsPassing(s[..4], c, now, hasLocation, false);
    FilterAppend(s[..4], s[4..], c, now, hasLocation, false);
    assert s[..4] + s[4..] == s;
  }
}
