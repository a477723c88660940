/** The optional values of the dashboard: a missing resolution time, a field
    absent from the saved preferences record. */
module Optional {
  datatype Option<T> = None | Some(value: T)
}

/** The alert record of the subway dashboard and its fixed catalogs. */
module Alerts {
  import opened Optional

  /** How serious an alert is. */
  datatype Severity = Critical | Warning | Info

  /** The borough tag an alert is located in. */
  datatype Borough = Manhattan | Brooklyn | Queens | Bronx

  /** One service alert. Instants are milliseconds since the epoch; the
      walking distance is in hundredths of a mile. */
  datatype Alert = Alert(
    id: string,
    title: string,
    description: string,
    lines: seq<string>,
    severity: Severity,
    timestamp: int,
    affectedStations: seq<string>,
    estimatedResolution: Option<int>,
    isRushHour: bool,
    location: Borough,
    serviceReliability: int,
    walkingDistance: nat)

  /** The keys of the line colour table, in declaration order: every line
      the dashboard knows about. */
  const LineCatalog: seq<string> :=
    ["1", "2", "3", "4", "5", "6", "7", "A", "C", "E", "B", "D", "F", "M",
     "G", "J", "Z", "L", "N", "Q", "R", "W", "S"]

  /** The name a severity carries in an alert record and in the filter form. */
  function SeverityName(s: Severity): string {
    match s
    case Critical => "critical"
    case Warning => "warning"
    case Info => "info"
  }

  /** The tag a borough carries in an alert record and in the filter form. */
  function BoroughName(b: Borough): string {
    match b
    case Manhattan => "manhattan"
    case Brooklyn => "brooklyn"
    case Queens => "queens"
    case Bronx => "bronx"
  }

  /** The descriptions of the six simulated alerts. */
  const Description1: string :=
    "Due to signal problems at Union Square, expect delays in both directions. Trains are operating with increased travel time of 15-20 minutes."

  const Description2: string :=
    "L train is not running between 14 St-Union Sq and 8 Av due to planned maintenance work. Free shuttle bus service is available."

  const Description3: string :=
    "N and Q trains are running local in Manhattan due to track work. Allow extra travel time."

  const Description4: string :=
    "Elevator at 59 St-Columbus Circle is back in service. All station levels are now accessible."

  const Description5: string :=
    "Additional 6 express trains are running during evening rush hours to reduce crowding."

  const Description6: string :=
    "F train experiencing minor delays due to train traffic ahead. Expect 5-10 minute delays."

  /** The six simulated alerts the dashboard loads at instant `loadedAt`:
      each was issued before that instant, and each one with a resolution
      time is resolved after it. */
  function SampleAlerts(loadedAt: int): (r: seq<Alert>)
    ensures |r| == 6
    ensures forall i :: 0 <= i < |r| ==> r[i].timestamp < loadedAt
    ensures forall i :: 0 <= i < |r| && r[i].estimatedResolution.Some? ==> r[i].estimatedResolution.value > loadedAt
  {
    [ Alert("1", "Service Disruption on 4, 5, 6 Lines", Description1,
            ["4", "5", "6"], Critical, loadedAt - 1800000, ["Union Sq", "14 St", "Astor Pl"],
            Some(loadedAt + 3600000), true, Manhattan, 65, 30),
      Alert("2", "Weekend Service Changes", Description2,
            ["L"], Warning, loadedAt - 3600000, ["14 St-Union Sq", "8 Av", "6 Av"],
            Some(loadedAt + 14400000), false, Manhattan, 45, 50),
      Alert("3", "Express Service Running Local", Description3,
            ["N", "Q"], Warning, loadedAt - 900000, ["Times Sq", "Herald Sq", "Union Sq"],
            Some(loadedAt + 7200000), true, Manhattan, 75, 20),
      Alert("4", "Station Accessibility Update", Description4,
            ["A", "B", "C", "D"], Info, loadedAt - 600000, ["59 St-Columbus Circle"],
            None, false, Manhattan, 95, 80),
      Alert("5", "Rush Hour Express Service", Description5,
            ["6"], Info, loadedAt - 1200000, ["Multiple stations"],
            Some(loadedAt + 1800000), true, Manhattan, 85, 10),
      Alert("6", "Brooklyn Service Alert", Description6,
            ["F"], Warning, loadedAt - 2700000, ["Jay St", "Borough Hall", "Court St"],
            Some(loadedAt + 1800000), false, Brooklyn, 80, 120) ]
  }
}
