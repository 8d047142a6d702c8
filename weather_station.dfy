/**
 * The weather station of `10_exercises/07_exercise.js`: a subject keeping
 * a list of observers, compared by identity, and the latest weather
 * reading; every new reading is stored and then pushed to each observer in
 * list order. Console output is returned as lines.
 */
module WeatherStation {
  import opened Wrappers
  import Strings
  import Seqs

  /** `{ temperature, condition }`. */
  datatype WeatherData = WeatherData(temperature: int, condition: string)

  /** The observer classes; `Base` is the bare `Observer`, whose `update` does nothing. */
  datatype Kind = Base | MobileApp | WebDashboard | AlertSystem

  /** An observer object; `removeObserver` compares observers by identity. */
  class Observer {
    const kind: Kind

    constructor(kind: Kind)
      ensures this.kind == kind
    {
      this.kind := kind;
    }
  }

  /** `JSON.stringify(weatherData)` for a condition that needs no escaping. */
  function Json(data: WeatherData): string {
    "{\"temperature\":" + Strings.IntToString(data.temperature) + ",\"condition\":\"" + data.condition + "\"}"
  }

  /** What `update(weatherData)` of an observer of `kind` prints. */
  function UpdateLines(kind: Kind, data: WeatherData): (lines: seq<string>)
    ensures kind == AlertSystem ==> (lines != [] <==> data.condition == "Storm")
    ensures kind != AlertSystem ==> (lines == [] <==> kind == Base)
    ensures |lines| <= 1
  {
    match kind
    case Base => []
    case MobileApp =>
      ["📱 MobileApp: Weather is now " + Strings.IntToString(data.temperature) + "°C and " + data.condition]
    case WebDashboard =>
      ["💻 WebDashboard: Displaying " + data.condition + " with " + Strings.IntToString(data.temperature) + "°C"]
    case AlertSystem =>
      if data.condition == "Storm" then ["🚨 AlertSystem: Sending storm alert!"] else []
  }

  /** The lines of calling `update(data)` on each observer, in list order. */
  function NotifyLines(observers: seq<Observer>, data: WeatherData): seq<string>
    reads observers
  {
    if observers == [] then []
    else NotifyLines(observers[..|observers| - 1], data) + UpdateLines(observers[|observers| - 1].kind, data)
  }

  /** Notifying a list made of two parts notifies the first part, then the second. */
  lemma {:induction false} NotifyLinesAppend(a: seq<Observer>, b: seq<Observer>, data: WeatherData)
    ensures NotifyLines(a + b, data) == NotifyLines(a, data) + NotifyLines(b, data)
    decreases |b|
  {
    if b == [] {
      assert a + b == a;
    } else {
      var n := |b| - 1;
      assert (a + b)[..|a + b| - 1] == a + b[..n];
      NotifyLinesAppend(a, b[..n], data);
    }
  }

  /** Only an alert system reacts to a storm with the alert, and with nothing else. */
  lemma StormAlertOnly(observer: Observer, data: WeatherData)
    ensures "🚨 AlertSystem: Sending storm alert!" in UpdateLines(observer.kind, data) <==>
      observer.kind == AlertSystem && data.condition == "Storm"
  {
    match observer.kind
    case MobileApp =>
      var line := UpdateLines(observer.kind, data)[0];
      assert line[0] != "🚨 AlertSystem: Sending storm alert!"[0];
    case WebDashboard =>
      var line := UpdateLines(observer.kind, data)[0];
      assert line[0] != "🚨 AlertSystem: Sending storm alert!"[0];
    case _ =>
  }

  /** The line `setWeather` prints before storing the reading. */
  function UpdatedLine(data: WeatherData): string {
    "🌤️ Weather updated: " + Json(data)
  }

  /** The subject. */
  class Station {
    var observers: seq<Observer>
    var weatherData: Option<WeatherData>

    /** `new WeatherStation()`: no observers, and `weatherData` is `null`. */
    constructor()
      ensures observers == [] && weatherData == None
    {
      observers := [];
      weatherData := None;
    }

    /** `addObserver(observer)`: appends, even an observer already in the list. */
    method AddObserver(observer: Observer)
      modifies this
      ensures observers == old(observers) + [observer] && weatherData == old(weatherData)
    {
      observers := observers + [observer];
    }

    /**
     * `removeObserver(observer)`: keeps, in order, every observer that is
     * not this one, so each occurrence of it goes.
     */
    method RemoveObserver(observer: Observer)
      modifies this
      ensures observers == Seqs.RemoveAll(old(observers), observer) && weatherData == old(weatherData)
      ensures forall o :: o in observers <==> o in old(observers) && o != observer
    {
      forall o {
        Seqs.RemoveAllMembers(observers, observer, o);
      }
      observers := Seqs.RemoveAll(observers, observer);
    }

    /** `notifyObservers()`: calls `update` with the stored reading on each observer in list order. */
    method NotifyObservers() returns (lines: seq<string>)
      requires weatherData.Some?
      ensures lines == NotifyLines(observers, weatherData.value)
    {
      var data := weatherData.value;
      lines := [];
      var i := 0;
      while i < |observers|
        invariant 0 <= i <= |observers|
        invariant lines == NotifyLines(observers[..i], data)
      {
        assert observers[..i + 1][..i] == observers[..i];
        var observer := observers[i];
        var printed := Update(observer, data);
        lines := lines + printed;
        i := i + 1;
      }
      assert observers[..i] == observers;
    }

    /** `setWeather(weatherData)`: reports the reading, stores it, then notifies. */
    method SetWeather(data: WeatherData) returns (lines: seq<string>)
      modifies this
      ensures weatherData == Some(data) && observers == old(observers)
      ensures lines == [UpdatedLine(data)] + NotifyLines(observers, data)
    {
      weatherData := Some(data);
      var notified := NotifyObservers();
      lines := [UpdatedLine(data)] + notified;
    }
  }

  /** `observer.update(weatherData)`. */
  method Update(observer: Observer, data: WeatherData) returns (lines: seq<string>)
    ensures lines == UpdateLines(observer.kind, data)
  {
    lines := UpdateLines(observer.kind, data);
  }

  /** The three subscribed apps print one line each, and the alert system adds its alert for a storm only. */
  lemma {:induction false} SubscribedApps(observers: seq<Observer>, data: WeatherData)
    requires |observers| == 3
    requires observers[0].kind == MobileApp && observers[1].kind == WebDashboard && observers[2].kind == AlertSystem
    ensures var lines := NotifyLines(observers, data);
      |lines| == (if data.condition == "Storm" then 3 else 2) &&
      (data.condition == "Storm" ==> lines[2] == "🚨 AlertSystem: Sending storm alert!")
  {
    var first, second := observers[..1], observers[..2];
    assert first[..0] == [] && second[..1] == first && observers[..2] == second;
    assert |NotifyLines(first, data)| == 1;
    assert |NotifyLines(second, data)| == 2;
  }

  /** Three readings pushed to the three subscribed apps, the last one a storm. */
  method ThreeReadings(station: Station, first: WeatherData, second: WeatherData, third: WeatherData)
    returns (a: seq<string>, b: seq<string>, c: seq<string>)
    requires |station.observers| == 3
    requires station.observers[0].kind == MobileApp && station.observers[1].kind == WebDashboard
    requires station.observers[2].kind == AlertSystem
    requires first.condition != "Storm" && second.condition != "Storm" && third.condition == "Storm"
    modifies station
    ensures |a| == 3 && |b| == 3 && |c| == 4
    ensures c[3] == "🚨 AlertSystem: Sending storm alert!"
  {
    SubscribedApps(station.observers, first);
    SubscribedApps(station.observers, second);
    SubscribedApps(station.observers, third);
    a := station.SetWeather(first);
    b := station.SetWeather(second);
    c := station.SetWeather(third);
  }

  /**
   * The client code: the three observers subscribed in turn; each of the
   * three readings prints its report and one line from each app, and only
   * the storm adds the alert.
   */
  method ClientCode() returns (sunny: seq<string>, rainy: seq<string>, storm: seq<string>)
    ensures |sunny| == 3 && |rainy| == 3 && |storm| == 4
    ensures storm[3] == "🚨 AlertSystem: Sending storm alert!"
  {
    var station := new Station();
    var mobileApp := new Observer(MobileApp);
    var webDashboard := new Observer(WebDashboard);
    var alertSystem := new Observer(AlertSystem);
    station.AddObserver(mobileApp);
    station.AddObserver(webDashboard);
    station.AddObserver(alertSystem);
    assert "Sunny"[1] != "Storm"[1] && "Rainy"[0] != "Storm"[0];
    sunny, rainy, storm := ThreeReadings(station, WeatherData(28, "Sunny"), WeatherData(22, "Rainy"), WeatherData(18, "Storm"));
  }
}
