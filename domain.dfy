/** The shared entities of lib/types.ts and the stress classification it defines.
    The Tanker and Dispatch shapes follow the fields the core reads from them. */
module Domain {

  /** A JavaScript value that may be null or undefined. */
  datatype Option<T> = None | Some(value: T)

  /** `value ?? fallback`: the fallback replaces only a missing value, never a
      present one such as 0. */
  function Coalesce<T>(value: Option<T>, fallback: T): T
  {
    match value
    case Some(v) => v
    case None => fallback
  }

  datatype StressLevel = Safe | Warning | Critical

  /** How severe a level is: safe < warning < critical. */
  function Severity(level: StressLevel): nat
  {
    match level
    case Safe => 0
    case Warning => 1
    case Critical => 2
  }

  /** getStressLevel: below 50 is safe, up to and including 75 a warning, above critical. */
  function GetStressLevel(score: real): (level: StressLevel)
    ensures level == Safe <==> score < 50.0
    ensures level == Warning <==> 50.0 <= score <= 75.0
    ensures level == Critical <==> score > 75.0
  {
    if score < 50.0 then Safe
    else if score <= 75.0 then Warning
    else Critical
  }

  /** A higher score never gives a less severe level. */
  lemma StressLevelMonotone(a: real, b: real)
    requires a <= b
    ensures Severity(GetStressLevel(a)) <= Severity(GetStressLevel(b))
  {
  }

  datatype TankerStatus = Available | Dispatched | InTransit | Delivering | Maintenance | Offline

  datatype Tanker = Tanker(
    id: string,
    registrationNo: string,
    driverName: string,
    driverPhone: Option<string>,
    capacity: real,
    depotLocation: string,
    depotLat: real,
    depotLng: real,
    status: TankerStatus)

  /** Dispatch statuses; InTransit and Delivering share their names with tanker
      statuses and are written DispatchStatus.InTransit where that is ambiguous. */
  datatype DispatchStatus = Pending | Assigned | InTransit | Delivering | Completed | Cancelled

  datatype Priority = Low | Medium | High | Urgent

  /** The token the source stores for a priority. */
  function PriorityToken(p: Priority): string
  {
    match p
    case Low => "low"
    case Medium => "medium"
    case High => "high"
    case Urgent => "urgent"
  }

  /** The stress-derived priority of auto-assign and of the plan validator:
      above 75 urgent, above 60 high, otherwise medium. */
  function PriorityFromStress(stressScore: int): (p: Priority)
    ensures p != Low
    ensures p == Urgent <==> stressScore > 75
    ensures p == High <==> 60 < stressScore <= 75
    ensures p == Medium <==> stressScore <= 60
  {
    if stressScore > 75 then Urgent
    else if stressScore > 60 then High
    else Medium
  }

  datatype Dispatch = Dispatch(
    tankerId: string,
    villageId: string,
    villageName: string,
    villageLat: real,
    villageLng: real,
    status: DispatchStatus,
    priority: Priority,
    tripsAssigned: int)

  /** A dispatch that is still open: pending, assigned, in_transit or delivering. */
  predicate IsActiveDispatchStatus(s: DispatchStatus)
  {
    s in {Pending, Assigned, DispatchStatus.InTransit, DispatchStatus.Delivering}
  }

  /** A village row of the store (villageCode is the public identifier). */
  datatype Village = Village(
    id: string,
    villageCode: string,
    name: string,
    district: string,
    lat: real,
    lng: real,
    population: int,
    stressScore: int,
    rainfallDeviation: int,
    groundwaterLevel: real,
    historicalAvgRainfall: real,
    tankerDemand: int)

  datatype DistrictStats = DistrictStats(
    name: string,
    totalVillages: int,
    criticalCount: int,
    warningCount: int,
    safeCount: int,
    avgStressScore: int,
    totalTankerDemand: int)
}
