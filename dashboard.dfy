/** The dashboard's greeting, its difficulty badge colours and the flags of its data load. */
module Dashboard {
  import opened Common

  const LoadFailed := "Failed to load dashboard data."

  /** `getGreeting()` for the hour the clock reports. */
  function Greeting(hour: int): (g: string)
    ensures g == "Good morning" <==> hour < 12
    ensures g == "Good afternoon" <==> 12 <= hour < 18
    ensures g == "Good evening" <==> hour >= 18
  {
    if hour < 12 then "Good morning"
    else if hour < 18 then "Good afternoon"
    else "Good evening"
  }

  /** `getDifficultyClass(difficulty)` */
  function DifficultyClass(difficulty: string): (c: string)
    ensures c == "bg-green-500" <==> difficulty == "easy"
    ensures c == "bg-yellow-500" <==> difficulty == "medium"
    ensures c == "bg-red-500" <==> difficulty == "hard"
    ensures c == "bg-gray-500" <==> difficulty != "easy" && difficulty != "medium" && difficulty != "hard"
  {
    if difficulty == "easy" then "bg-green-500"
    else if difficulty == "medium" then "bg-yellow-500"
    else if difficulty == "hard" then "bg-red-500"
    else "bg-gray-500"
  }

  /** The dashboard's loaded data and its flags; `D` is the shape of the data. */
  class DashboardPage<D> {
    var dashboardData: Option<D>
    var loading: bool
    var error: Option<string>

    constructor ()
      ensures dashboardData.None? && loading && error.None?
    {
      dashboardData := None;
      loading := true;
      error := None;
    }

    /** The load effect; `data` is how `getDashboardData()` ended. */
    method LoadDashboardData(data: Result<D>)
      modifies this
      ensures !loading
      ensures data.Success? ==> dashboardData == Some(data.value) && error == old(error)
      ensures data.Failure? ==> dashboardData == old(dashboardData) && error == Some(LoadFailed)
    {
      match data {
        case Success(d) => dashboardData := Some(d);
        case Failure(_) => error := Some(LoadFailed);
      }
      loading := false;
    }
  }
}
