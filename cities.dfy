/** The visited-city record stored in the remote store and held in the city list. */
module Cities {
  import opened JsNumber

  /** The map coordinate clicked when the city was created. */
  datatype Position = Position(lat: Number, lng: Number)

  datatype City = City(
    id: int,
    cityName: string,
    country: string,
    emoji: string,
    date: string,
    notes: string,
    position: Position)
}
