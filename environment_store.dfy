/** The web client's environment store: the latest weather and time band, a loading flag,
    an error text and the time of the last update. Each action overwrites some fields and
    leaves the others. `now` stands for `new Date()`. */
module EnvironmentStore {
  import opened Common
  import WorkerEnvironment

  /** The current time band as the worker reports it, with the hour it was taken at. */
  datatype TimeOfDayData = TimeOfDayData(current: string, hour: int)

  class EnvironmentStore {
    var weather: Option<WorkerEnvironment.WeatherData>
    var timeOfDay: Option<TimeOfDayData>
    var isLoading: bool
    var error: Option<string>
    var lastUpdated: Option<int>

    /** The initial state: everything empty and not loading. */
    constructor()
      ensures weather == None && timeOfDay == None && !isLoading && error == None && lastUpdated == None
    {
      weather := None;
      timeOfDay := None;
      isLoading := false;
      error := None;
      lastUpdated := None;
    }

    /** setWeather: the time band and the loading flag stay. */
    method SetWeather(w: WorkerEnvironment.WeatherData, now: int)
      modifies this
      ensures weather == Some(w) && lastUpdated == Some(now) && error == None
      ensures timeOfDay == old(timeOfDay) && isLoading == old(isLoading)
    {
      weather := Some(w);
      lastUpdated := Some(now);
      error := None;
    }

    /** setTimeOfDay: the weather and the loading flag stay. */
    method SetTimeOfDay(t: TimeOfDayData, now: int)
      modifies this
      ensures timeOfDay == Some(t) && lastUpdated == Some(now) && error == None
      ensures weather == old(weather) && isLoading == old(isLoading)
    {
      timeOfDay := Some(t);
      lastUpdated := Some(now);
      error := None;
    }

    /** setEnvironment: both at once; only the loading flag stays. */
    method SetEnvironment(w: WorkerEnvironment.WeatherData, t: TimeOfDayData, now: int)
      modifies this
      ensures weather == Some(w) && timeOfDay == Some(t) && lastUpdated == Some(now) && error == None
      ensures isLoading == old(isLoading)
    {
      weather := Some(w);
      timeOfDay := Some(t);
      lastUpdated := Some(now);
      error := None;
    }

    /** setLoading changes the loading flag and nothing else. */
    method SetLoading(loading: bool)
      modifies this
      ensures isLoading == loading
      ensures weather == old(weather) && timeOfDay == old(timeOfDay)
      ensures error == old(error) && lastUpdated == old(lastUpdated)
    {
      isLoading := loading;
    }

    /** setError records the error (or clears it) and ends loading. */
    method SetError(e: Option<string>)
      modifies this
      ensures error == e && !isLoading
      ensures weather == old(weather) && timeOfDay == old(timeOfDay) && lastUpdated == old(lastUpdated)
    {
      error := e;
      isLoading := false;
    }

    /** clearEnvironment empties the data fields but, unlike the initial state, keeps the
        loading flag. */
    method ClearEnvironment()
      modifies this
      ensures weather == None && timeOfDay == None && error == None && lastUpdated == None
      ensures isLoading == old(isLoading)
    {
      weather := None;
      timeOfDay := None;
      error := None;
      lastUpdated := None;
    }
  }
}
