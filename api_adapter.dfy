/**
 * The adapter of `10_exercises/04_exercise.js`: `ApiAdapter` turns the
 * record `OldApiService.fetchData` returns into the record `NewComponent`
 * renders. The service and the adapter hold no state, so both are
 * functions over records.
 */
module ApiAdapter {
  import Strings

  /** The record the old REST service returns. */
  datatype OldData = OldData(user_id: int, user_name: string, user_email: string)

  /** The record the new component expects. */
  datatype User = User(id: int, name: string, email: string)

  /** `OldApiService.fetchData()`: the simulated response. */
  function FetchData(): OldData {
    OldData(101, "Alice", "alice@example.com")
  }

  /** The conversion inside `getFormattedData`. */
  function Adapt(data: OldData): (user: User)
    ensures user.id == data.user_id
    ensures user.name == data.user_name
    ensures user.email == data.user_email
  {
    User(data.user_id, data.user_name, data.user_email)
  }

  /** The inverse conversion, new shape to old; the program only converts old to new, and this shows that conversion loses nothing. */
  function Unadapt(user: User): OldData {
    OldData(user.id, user.name, user.email)
  }

  /** The conversion is a bijection: each direction undoes the other. */
  lemma AdaptRoundTrip(data: OldData, user: User)
    ensures Unadapt(Adapt(data)) == data
    ensures Adapt(Unadapt(user)) == user
  {
  }

  /** `adapter.getFormattedData()`: the old service's answer, converted. */
  function GetFormattedData(): (user: User)
    ensures user == User(101, "Alice", "alice@example.com")
  {
    Adapt(FetchData())
  }

  /** `NewComponent.render(user)`. */
  function Render(user: User): (line: string)
    ensures Strings.StartsWith(line, "User Profile: " + Strings.IntToString(user.id) + " | ")
  {
    var head := "User Profile: " + Strings.IntToString(user.id) + " | ";
    var line := head + user.name + " | " + user.email;
    assert line[..|head|] == head;
    line
  }

  /** The client code renders the adapted record of user 101. */
  lemma ClientCode()
    ensures Render(GetFormattedData()) == "User Profile: " + Strings.IntToString(101) + " | " + "Alice" + " | " + "alice@example.com"
  {
  }
}
