/**
 * The city store of the provider: its state, the reducer that is the only
 * thing allowed to change that state, and the provider's operations, each an
 * ordered series of dispatches around one request to the remote store.
 */
module CityContext {
  import opened Wrappers
  import opened Cities
  import JsArray

  datatype State = State(
    cityData: seq<City>,
    isLoading: bool,
    currentCity: Option<City>,
    error: Option<string>)

  /** `initialState`: the state the provider starts from. */
  function InitialState(): (s: State)
    ensures s.cityData == [] && !s.isLoading
    ensures s.currentCity == None && s.error == None
  {
    State([], false, None, None)
  }

  /** The seven action types; `DELETE_CITY` and `CLEAR_ERROR` carry a suffix that keeps them apart from the store's methods. */
  datatype Action =
    | SetCities(cities: seq<City>)
    | SetLoading(loading: bool)
    | SetCurrentCity(selected: Option<City>)
    | AddCity(added: City)
    | DeleteCityAction(id: int)
    | Error(message: string)
    | ClearErrorAction

  /** The predicate of `city.id !== id`. */
  function IdDiffers(id: int): City -> bool {
    (city: City) => city.id != id
  }

  /** The list that `DELETE_CITY id` leaves: every city whose id is not `id`, in order. */
  function WithoutId(cities: seq<City>, id: int): (r: seq<City>)
    ensures forall i :: 0 <= i < |r| ==> r[i].id != id && r[i] in cities
    ensures forall i :: 0 <= i < |cities| && cities[i].id != id ==> cities[i] in r
  {
    JsArray.Filter(cities, IdDiffers(id))
  }

  /** `reducer`: which actions may change which field is part of its contract. */
  function Reduce(s: State, a: Action): (r: State)
    ensures r.isLoading != s.isLoading ==> a.SetLoading?
    ensures r.cityData != s.cityData ==> a.SetCities? || a.AddCity? || a.DeleteCityAction?
    ensures r.currentCity != s.currentCity ==> a.SetCurrentCity?
    ensures r.error != s.error ==> a.Error? || a.ClearErrorAction?
  {
    match a
    case SetLoading(loading) => s.(isLoading := loading)
    case SetCities(cities) => s.(cityData := cities)
    case SetCurrentCity(city) => s.(currentCity := city)
    case AddCity(city) => s.(cityData := s.cityData + [city])
    case DeleteCityAction(id) => s.(cityData := WithoutId(s.cityData, id))
    case Error(message) => s.(error := Some(message))
    case ClearErrorAction => s.(error := None)
  }

  /** Each action other than the list actions touches exactly one field. */
  lemma ReduceChangesOneField(s: State, a: Action)
    ensures a.SetLoading? ==> Reduce(s, a) == State(s.cityData, a.loading, s.currentCity, s.error)
    ensures a.SetCities? ==> Reduce(s, a) == State(a.cities, s.isLoading, s.currentCity, s.error)
    ensures a.SetCurrentCity? ==> Reduce(s, a) == State(s.cityData, s.isLoading, a.selected, s.error)
    ensures a.Error? ==> Reduce(s, a) == State(s.cityData, s.isLoading, s.currentCity, Some(a.message))
    ensures a.ClearErrorAction? ==> Reduce(s, a) == State(s.cityData, s.isLoading, s.currentCity, None)
  {
  }

  /** `ADD_CITY c` appends `c`: one longer, same prefix, `c` last. */
  lemma AddCityAppends(s: State, c: City)
    ensures var r := Reduce(s, AddCity(c));
      && |r.cityData| == |s.cityData| + 1
      && r.cityData[..|s.cityData|] == s.cityData
      && r.cityData[|s.cityData|] == c
      && r.isLoading == s.isLoading && r.currentCity == s.currentCity && r.error == s.error
  {
  }

  /** After `DELETE_CITY id` no city has that id, and every other city is still there. */
  lemma DeleteCityRemoves(s: State, id: int)
    ensures var r := Reduce(s, DeleteCityAction(id));
      && (forall i :: 0 <= i < |r.cityData| ==> r.cityData[i].id != id)
      && (forall c :: c in s.cityData && c.id != id ==> c in r.cityData)
      && (forall c :: c in r.cityData ==> c in s.cityData)
      && r.currentCity == s.currentCity && r.isLoading == s.isLoading && r.error == s.error
  {
    var r := Reduce(s, DeleteCityAction(id));
    forall c | c in s.cityData && c.id != id ensures c in r.cityData {
      var i :| 0 <= i < |s.cityData| && s.cityData[i] == c;
    }
    forall c | c in r.cityData ensures c in s.cityData {
      var i :| 0 <= i < |r.cityData| && r.cityData[i] == c;
    }
  }

  /** `DELETE_CITY` keeps the original order: it acts on each part of a split list separately. */
  lemma DeleteCityKeepsOrder(a: seq<City>, b: seq<City>, id: int)
    ensures WithoutId(a + b, id) == WithoutId(a, id) + WithoutId(b, id)
  {
    JsArray.FilterAppend(a, b, IdDiffers(id));
  }

  /** `DELETE_CITY id` leaves a list without that id unchanged. */
  lemma DeleteCityAbsent(cities: seq<City>, id: int)
    requires forall i :: 0 <= i < |cities| ==> cities[i].id != id
    ensures WithoutId(cities, id) == cities
  {
    JsArray.FilterKeepsAll(cities, IdDiffers(id));
  }

  /** Applying `DELETE_CITY id` twice is applying it once. */
  lemma DeleteCityIdempotent(s: State, id: int)
    ensures Reduce(Reduce(s, DeleteCityAction(id)), DeleteCityAction(id)) == Reduce(s, DeleteCityAction(id))
  {
    JsArray.FilterIdempotent(s.cityData, IdDiffers(id));
  }

  /** What a caught exception is: an `Error` instance with its message, or any other thrown value. */
  datatype Thrown = ErrorObject(message: string) | NonErrorValue

  /** The result of one `fetch` (with `res.json()` where the source reads the body): a body, or an exception. */
  datatype Outcome<T> = Responded(body: T) | Threw(thrown: Thrown)

  /** The error after a `catch` block: only an `Error` instance is recorded. */
  function ErrorAfterCatch(previous: Option<string>, e: Thrown): (r: Option<string>)
    ensures e.ErrorObject? ==> r == Some(e.message)
    ensures e.NonErrorValue? ==> r == previous
  {
    match e
    case ErrorObject(message) => Some(message)
    case NonErrorValue => previous
  }

  /** The status the delete handler accepts as success. */
  const DeleteSuccessStatus: int := 200

  /** The provider, holding the reducer's state in fields that every dispatch overwrites. */
  class CityStore {
    var cityData: seq<City>
    var isLoading: bool
    var currentCity: Option<City>
    var error: Option<string>

    function Snapshot(): State
      reads this
    {
      State(cityData, isLoading, currentCity, error)
    }

    /** `useReducer(reducer, initialState)` */
    constructor ()
      ensures Snapshot() == InitialState()
    {
      cityData, isLoading, currentCity, error := [], false, None, None;
    }

    /** `dispatch(a)`; also what `setCurrentCity`, `setIsLoading` and `setCityData` do. */
    method Dispatch(a: Action)
      modifies this
      ensures Snapshot() == Reduce(old(Snapshot()), a)
    {
      var next := Reduce(Snapshot(), a);
      cityData, isLoading, currentCity, error := next.cityData, next.isLoading, next.currentCity, next.error;
    }

    /** The `catch` block shared by every operation. */
    method Catch(e: Thrown)
      modifies this
      ensures cityData == old(cityData) && isLoading == old(isLoading) && currentCity == old(currentCity)
      ensures error == ErrorAfterCatch(old(error), e)
    {
      if e.ErrorObject? {
        Dispatch(Error(e.message));
      }
    }

    /** The mount effect: `GET /cities` and install the list. */
    method LoadCities(response: Outcome<seq<City>>)
      modifies this
      ensures !isLoading
      ensures currentCity == old(currentCity)
      ensures response.Responded? ==> cityData == response.body && error == old(error)
      ensures response.Threw? ==> cityData == old(cityData) && error == ErrorAfterCatch(old(error), response.thrown)
    {
      Dispatch(SetLoading(true));
      match response {
        case Responded(data) =>
          Dispatch(SetCities(data));
        case Threw(e) =>
          Catch(e);
      }
      Dispatch(SetLoading(false));
    }

    /**
     * `getCity(id)`: `GET /cities/:id` and select the result, with no check against the current city.
     * `id` only forms the URL: nothing checks that the returned city has that id.
     */
    method GetCity(id: int, response: Outcome<City>)
      modifies this
      ensures !isLoading
      ensures cityData == old(cityData)
      ensures response.Responded? ==> currentCity == Some(response.body) && error == old(error)
      ensures response.Threw? ==> currentCity == old(currentCity) && error == ErrorAfterCatch(old(error), response.thrown)
    {
      Dispatch(SetLoading(true));
      match response {
        case Responded(data) =>
          Dispatch(SetCurrentCity(Some(data)));
        case Threw(e) =>
          Catch(e);
      }
      Dispatch(SetLoading(false));
    }

    /**
     * `createCity(newCity)`: `POST /cities` with `newCity`, then append and select what the store returned.
     * `newCity` is only the request body: the state takes the response, which need not equal it.
     */
    method CreateCity(newCity: City, response: Outcome<City>)
      modifies this
      ensures !isLoading
      ensures response.Responded? ==>
        && cityData == old(cityData) + [response.body]
        && currentCity == Some(response.body)
        && error == old(error)
      ensures response.Threw? ==>
        && cityData == old(cityData)
        && currentCity == old(currentCity)
        && error == ErrorAfterCatch(old(error), response.thrown)
    {
      Dispatch(SetLoading(true));
      match response {
        case Responded(data) =>
          Dispatch(SetCities(cityData + [data]));
          Dispatch(SetCurrentCity(Some(data)));
        case Threw(e) =>
          Catch(e);
      }
      Dispatch(SetLoading(false));
    }

    /**
     * `deleteCity(id)`: `DELETE /cities/:id`; the response here is its status.
     * Only status 200 changes the list; any other status is logged and ignored.
     */
    method DeleteCity(id: int, response: Outcome<int>)
      modifies this
      ensures !isLoading
      ensures response == Responded(DeleteSuccessStatus) ==>
        && cityData == WithoutId(old(cityData), id)
        && currentCity == (if old(currentCity).Some? && old(currentCity).value.id == id then None else old(currentCity))
        && error == old(error)
      ensures response.Responded? && response.body != DeleteSuccessStatus ==>
        cityData == old(cityData) && currentCity == old(currentCity) && error == old(error)
      ensures response.Threw? ==>
        && cityData == old(cityData)
        && currentCity == old(currentCity)
        && error == ErrorAfterCatch(old(error), response.thrown)
    {
      Dispatch(SetLoading(true));
      match response {
        case Responded(status) =>
          if status == DeleteSuccessStatus {
            Dispatch(DeleteCityAction(id));
            if currentCity.Some? && currentCity.value.id == id {
              Dispatch(SetCurrentCity(None));
            }
          }
        case Threw(e) =>
          Catch(e);
      }
      Dispatch(SetLoading(false));
    }

    /** `clearError()` */
    method ClearError()
      modifies this
      ensures error == None
      ensures cityData == old(cityData) && isLoading == old(isLoading) && currentCity == old(currentCity)
    {
      Dispatch(ClearErrorAction);
    }
  }

  /** Mounting the provider: the initial state, then the load effect, which runs once. */
  method Mount(initialLoad: Outcome<seq<City>>) returns (store: CityStore)
    ensures fresh(store)
    ensures !store.isLoading && store.currentCity == None
    ensures initialLoad.Responded? ==> store.cityData == initialLoad.body && store.error == None
    ensures initialLoad.Threw? ==> store.cityData == [] && store.error == ErrorAfterCatch(None, initialLoad.thrown)
  {
    store := new CityStore();
    store.LoadCities(initialLoad);
  }

  /** Deleting the selected city 1 from [1, 2] leaves [2] and clears the selection. */
  method DeleteSelectedCity(one: City, two: City) returns (store: CityStore)
    requires one.id == 1 && two.id == 2
    ensures store.cityData == [two] && store.currentCity == None && !store.isLoading
  {
    store := new CityStore();
    store.LoadCities(Responded([one, two]));
    store.GetCity(1, Responded(one));
    store.DeleteCity(1, Responded(DeleteSuccessStatus));
    assert WithoutId([one, two], 1) == [two] by {
      DeleteCityKeepsOrder([one], [two], 1);
      DeleteCityAbsent([two], 1);
      assert WithoutId([one], 1) == [];
    }
  }
}
