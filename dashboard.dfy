/** The dashboard statistics store (app/composables/useDashboard.ts). */
module Dashboard {
  import opened Wrappers
  import opened Api

  datatype Stats = Stats(
    totalPassengers: int, totalDrivers: int, totalRides: int,
    totalAdmins: int, todayRides: int, activeDrivers: int)

  const InitialStats := Stats(0, 0, 0, 0, 0, 0)

  datatype DashboardResponse = DashboardResponse(success: bool, data: Stats)

  const FetchStatsFailed := "Failed to fetch dashboard statistics"

  /** The error `fetchStats` leaves behind: none unless the call threw. */
  function FetchStatsError(outcome: Outcome<DashboardResponse>): (e: Option<string>)
    ensures outcome.Returned? <==> e.None?
    ensures outcome.ThrewError? ==> e == Some(outcome.message)
    ensures outcome.ThrewNonError? ==> e == Some("Failed to fetch dashboard statistics")
  {
    match outcome
    case Returned(_) => None
    case ThrewError(message) => Some(message)
    case ThrewNonError => Some(FetchStatsFailed)
  }

  class DashboardStore {
    var stats: Stats
    var isLoading: bool
    var error: Option<string>

    /** All six counters start at zero, not loading, no error. */
    constructor()
      ensures stats == InitialStats && !isLoading && error == None
    {
      stats := InitialStats;
      isLoading := false;
      error := None;
    }

    /** `fetchStats()`: only a successful answer replaces the stats; it always ends not loading. */
    method FetchStats(outcome: Outcome<DashboardResponse>)
      modifies this
      ensures stats == if outcome.Returned? && outcome.value.success then outcome.value.data else old(stats)
      ensures error == FetchStatsError(outcome)
      ensures !isLoading
    {
      isLoading := true;
      error := None;
      match outcome {
        case Returned(response) =>
          if response.success {
            stats := response.data;
          }
        case ThrewError(message) =>
          error := Some(message);
        case ThrewNonError =>
          error := Some(FetchStatsFailed);
      }
      isLoading := false;
    }
  }
}
