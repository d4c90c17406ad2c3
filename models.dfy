/** The payload records of the backend API (models/Room.kt, models/Parameter.kt and the
    Environment record). The loaders never look inside them; the screens do. */
module Models {
  import opened Wrappers

  /** One environment of `GET /env`: its id, display name and the caller's role in it. */
  datatype Environment = Environment(id: int, name: string, role: string)

  /** One measured parameter of a room. The `Double` fields (value, minimum, maximum)
      are not modelled. */
  datatype Parameter = Parameter(name: string, unit: string)

  /** One room of `GET /env/{id}/room`; `parameters` and `deviceSpeed` may be null. */
  datatype Room = Room(id: int, name: string, parameters: Option<seq<Parameter>>, deviceSpeed: Option<int>)
}
