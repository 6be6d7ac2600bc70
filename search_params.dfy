/**
 * URLSearchParams, reduced to what the hooks read: the decoded name/value
 * pairs of the query string, in order, and `get`, which returns the value of
 * the first pair with the given name, or null.
 */
module SearchParams {
  import opened Wrappers
  import JsArray

  type Query = seq<(string, string)>

  function NameIs(name: string): ((string, string)) -> bool {
    (pair: (string, string)) => pair.0 == name
  }

  /** `query.get(name)` */
  function Get(query: Query, name: string): (r: Option<string>)
    ensures r.Some? ==> (name, r.value) in query
    ensures r.None? <==> forall i :: 0 <= i < |query| ==> query[i].0 != name
  {
    match JsArray.Find(query, NameIs(name))
    case Some(pair) => Some(pair.1)
    case None => None
  }

  /** The index of the first pair with the given name. */
  lemma {:induction false} FirstNamed(query: Query, name: string) returns (k: nat)
    requires exists i :: 0 <= i < |query| && query[i].0 == name
    ensures k < |query| && query[k].0 == name
    ensures forall j :: 0 <= j < k ==> query[j].0 != name
  {
    if query[0].0 == name {
      k := 0;
    } else {
      var i :| 0 <= i < |query| && query[i].0 == name;
      assert query[1..][i - 1].0 == name;
      var k' := FirstNamed(query[1..], name);
      k := k' + 1;
    }
  }

  /** `get` returns the value of the first pair with that name, not of a later one. */
  lemma GetFirst(query: Query, name: string)
    requires Get(query, name).Some?
    ensures exists k ::
      && 0 <= k < |query|
      && query[k] == (name, Get(query, name).value)
      && (forall j :: 0 <= j < k ==> query[j].0 != name)
  {
    var k := FirstNamed(query, name);
    JsArray.FindFirst(query, NameIs(name), k);
    assert query[k] == (name, Get(query, name).value);
  }

  /** JavaScript truthiness of `string | null`: present and not empty. */
  predicate Truthy(s: Option<string>) {
    s.Some? && s.value != ""
  }
}
