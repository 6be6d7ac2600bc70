/**
 * The country list of the countries view: the distinct `country` values of
 * the city list, in the order they first appear (a JavaScript `Set` keeps
 * insertion order), each paired with the `emoji` of the first city there.
 */
module VisitedCountries {
  import opened Wrappers
  import opened Cities
  import JsArray

  datatype Country = Country(countryName: string, countryFlag: string)

  /** `cityData.map(city => city.country)` */
  function CountriesOf(cities: seq<City>): (r: seq<string>)
    ensures |r| == |cities|
    ensures forall i :: 0 <= i < |cities| ==> r[i] == cities[i].country
  {
    seq(|cities|, i requires 0 <= i < |cities| => cities[i].country)
  }

  /** `Array.from(new Set(s))`: each value once, at its first appearance. */
  function Distinct(s: seq<string>): (r: seq<string>)
    ensures |r| <= |s|
    ensures forall i :: 0 <= i < |r| ==> r[i] in s
    decreases |s|
  {
    if s == [] then []
    else
      var seen := Distinct(s[..|s| - 1]);
      if s[|s| - 1] in seen then seen else seen + [s[|s| - 1]]
  }

  predicate PairwiseDistinct(s: seq<string>) {
    forall i, j :: 0 <= i < j < |s| ==> s[i] != s[j]
  }

  /** The position of the first occurrence of `x` in `s`. */
  function FirstIndex(s: seq<string>, x: string): (k: nat)
    requires x in s
    ensures k < |s| && s[k] == x
    ensures forall j :: 0 <= j < k ==> s[j] != x
  {
    if s[0] == x then 0 else 1 + FirstIndex(s[1..], x)
  }

  /** The predicate of `city.country === country`. */
  function CountryIs(country: string): City -> bool {
    (city: City) => city.country == country
  }

  /** `countryData`: one entry per distinct country, flagged with its first city's emoji. */
  function CountryData(cities: seq<City>): (r: seq<Country>)
    ensures |r| == |Distinct(CountriesOf(cities))|
  {
    var unique := Distinct(CountriesOf(cities));
    seq(|unique|, i requires 0 <= i < |unique| =>
      var matchingCity := JsArray.Find(cities, CountryIs(unique[i]));
      Country(unique[i], if matchingCity.Some? then matchingCity.value.emoji else ""))
  }

  /** The names of the entries, in order. */
  function Names(r: seq<Country>): (names: seq<string>)
    ensures |names| == |r|
    ensures forall i :: 0 <= i < |r| ==> names[i] == r[i].countryName
  {
    seq(|r|, i requires 0 <= i < |r| => r[i].countryName)
  }

  /** The set of distinct values of `s`. */
  function Elements(s: seq<string>): set<string> {
    set x | x in s
  }

  /** A value is kept iff it occurs, and it is kept once. */
  lemma {:induction false} DistinctMembers(s: seq<string>)
    ensures forall x :: x in Distinct(s) <==> x in s
    ensures PairwiseDistinct(Distinct(s))
    decreases |s|
  {
    if s != [] {
      var init := s[..|s| - 1];
      DistinctMembers(init);
      assert s == init + [s[|s| - 1]];
    }
  }

  lemma FirstIndexOfPrefix(s: seq<string>, x: string)
    requires s != [] && x in s[..|s| - 1]
    ensures FirstIndex(s, x) == FirstIndex(s[..|s| - 1], x)
  {
    var init := s[..|s| - 1];
    var k := FirstIndex(init, x);
    assert s[k] == x;
  }

  /** Kept values appear in the order of their first occurrence in `s`. */
  lemma {:induction false} DistinctOrder(s: seq<string>)
    ensures forall x :: x in Distinct(s) ==> x in s
    ensures forall i, j :: 0 <= i < j < |Distinct(s)| ==>
      FirstIndex(s, Distinct(s)[i]) < FirstIndex(s, Distinct(s)[j])
    decreases |s|
  {
    DistinctMembers(s);
    if s != [] {
      var init := s[..|s| - 1];
      var last := s[|s| - 1];
      var seen := Distinct(init);
      DistinctOrder(init);
      DistinctMembers(init);
      forall x | x in seen ensures FirstIndex(s, x) == FirstIndex(init, x) && FirstIndex(s, x) < |s| - 1 {
        FirstIndexOfPrefix(s, x);
      }
      if last !in seen {
        assert last !in init;
        assert FirstIndex(s, last) == |s| - 1;
        var r := Distinct(s);
        assert r == seen + [last];
        forall i, j | 0 <= i < j < |r| ensures FirstIndex(s, r[i]) < FirstIndex(s, r[j]) {
          assert r[i] in seen;
          if j < |seen| { assert r[j] in seen; }
        }
      }
    }
  }

  /** A sequence without repeats has as many distinct values as elements. */
  lemma {:induction false} ElementsOfDistinct(s: seq<string>)
    requires PairwiseDistinct(s)
    ensures |Elements(s)| == |s|
  {
    if s != [] {
      var init := s[..|s| - 1];
      ElementsOfDistinct(init);
      assert Elements(s) == Elements(init) + {s[|s| - 1]};
      assert s[|s| - 1] !in Elements(init);
    }
  }

  /** `find` on the city list returns the first city of the given country. */
  lemma {:induction false} FindFirstOfCountry(cities: seq<City>, country: string)
    requires country in CountriesOf(cities)
    ensures JsArray.Find(cities, CountryIs(country)) == Some(cities[FirstIndex(CountriesOf(cities), country)])
  {
    var k := FirstIndex(CountriesOf(cities), country);
    JsArray.FindFirst(cities, CountryIs(country), k);
  }

  /** The entries name each visited country once, and no other. */
  lemma CountryDataNames(cities: seq<City>)
    ensures PairwiseDistinct(Names(CountryData(cities)))
    ensures forall x :: x in Names(CountryData(cities)) <==> (exists i :: 0 <= i < |cities| && cities[i].country == x)
  {
    var r := CountryData(cities);
    var countries := CountriesOf(cities);
    DistinctMembers(countries);
    assert Names(r) == Distinct(countries);
    forall x ensures x in countries <==> (exists i :: 0 <= i < |cities| && cities[i].country == x) {
      if x in countries {
        var i :| 0 <= i < |countries| && countries[i] == x;
        assert cities[i].country == x;
      }
    }
  }

  /** There are as many entries as distinct countries: PT, PT, FR gives two. */
  lemma CountryDataLength(cities: seq<City>)
    ensures |CountryData(cities)| == |set c | c in cities :: c.country|
  {
    var countries := CountriesOf(cities);
    var unique := Distinct(countries);
    DistinctMembers(countries);
    ElementsOfDistinct(unique);
    assert Elements(unique) == set c | c in cities :: c.country by {
      forall x | x in Elements(unique) ensures x in set c | c in cities :: c.country {
        var i :| 0 <= i < |countries| && countries[i] == x;
        assert cities[i] in cities;
      }
      forall x | x in set c | c in cities :: c.country ensures x in Elements(unique) {
        var c :| c in cities && c.country == x;
        var i :| 0 <= i < |cities| && cities[i] == c;
        assert countries[i] == x;
      }
    }
  }

  /** Entries come in the order in which their countries first appear in the list. */
  lemma CountryDataOrder(cities: seq<City>)
    ensures forall x :: x in Names(CountryData(cities)) ==> x in CountriesOf(cities)
    ensures forall i, j :: 0 <= i < j < |CountryData(cities)| ==>
      FirstIndex(CountriesOf(cities), CountryData(cities)[i].countryName)
        < FirstIndex(CountriesOf(cities), CountryData(cities)[j].countryName)
  {
    var countries := CountriesOf(cities);
    DistinctOrder(countries);
    assert Names(CountryData(cities)) == Distinct(countries);
  }

  /** Each flag is the emoji of the first city in that country; the empty fallback never applies. */
  lemma CountryDataFlags(cities: seq<City>)
    ensures forall i :: 0 <= i < |CountryData(cities)| ==>
      CountryData(cities)[i].countryName in CountriesOf(cities)
      && CountryData(cities)[i].countryFlag
         == cities[FirstIndex(CountriesOf(cities), CountryData(cities)[i].countryName)].emoji
  {
    var r := CountryData(cities);
    var countries := CountriesOf(cities);
    var unique := Distinct(countries);
    DistinctMembers(countries);
    forall i | 0 <= i < |r|
      ensures r[i].countryName in countries
      ensures r[i].countryFlag == cities[FirstIndex(countries, r[i].countryName)].emoji
    {
      assert r[i].countryName == unique[i];
      FindFirstOfCountry(cities, unique[i]);
    }
  }

  /** No cities, no countries. */
  lemma CountryDataEmpty()
    ensures CountryData([]) == []
  {
  }

  /** Two cities in PT then one in FR give PT with the first PT city's flag, then FR. */
  lemma CountryDataExample(pt1: City, pt2: City, fr: City)
    requires pt1.country == "PT" && pt2.country == "PT" && fr.country == "FR"
    ensures CountryData([pt1, pt2, fr]) == [Country("PT", pt1.emoji), Country("FR", fr.emoji)]
  {
    var cities := [pt1, pt2, fr];
    var countries := CountriesOf(cities);
    assert countries == ["PT", "PT", "FR"];
    assert countries[..2] == ["PT", "PT"];
    assert countries[..2][..1] == ["PT"];
    assert ["PT"][..0] == [];
    assert Distinct(["PT"]) == ["PT"];
    assert Distinct(["PT", "PT"]) == ["PT"];
    assert Distinct(countries) == ["PT", "FR"];
  }
}
