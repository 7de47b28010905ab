/**
 * The `search_tours` query: up to three optional filters over the
 * catalogue, each applied only when its argument is truthy, combined
 * with AND.
 */
module Queries {
  import opened Wrappers
  import opened Sequences
  import opened Text
  import opened Catalogue

  /** The optional arguments `destination`, `max_price` and `duration`. */
  datatype Query = Query(destination: Option<string>, maxPrice: Option<int>, duration: Option<string>)

  /** JavaScript truthiness of an optional string: present and not empty. */
  predicate TruthyString(a: Option<string>)
  {
    a.Some? && a.value != ""
  }

  /** JavaScript truthiness of an optional number: present and not zero. */
  predicate TruthyNumber(a: Option<int>)
  {
    a.Some? && a.value != 0
  }

  /** Case-insensitive substring match of the query on the destination or the name. */
  predicate MatchesDestination(t: Tour, query: string)
  {
    Includes(Lower(t.destination), Lower(query)) || Includes(Lower(t.name), Lower(query))
  }

  function ByDestination(query: string): Tour -> bool
  {
    (t: Tour) => MatchesDestination(t, query)
  }

  function ByMaxPrice(maxPrice: int): Tour -> bool
  {
    (t: Tour) => t.price <= maxPrice
  }

  function ByDuration(duration: string): Tour -> bool
  {
    (t: Tour) => t.duration == duration
  }

  /** The filtered list as the handler builds it: three conditional filters in a row. */
  function Search(tours: seq<Tour>, q: Query): seq<Tour>
  {
    var afterDestination :=
      if TruthyString(q.destination) then Filter(tours, ByDestination(q.destination.value)) else tours;
    var afterPrice :=
      if TruthyNumber(q.maxPrice) then Filter(afterDestination, ByMaxPrice(q.maxPrice.value)) else afterDestination;
    if TruthyString(q.duration) then Filter(afterPrice, ByDuration(q.duration.value)) else afterPrice
  }

  /** A tour satisfies every filter whose argument is truthy. */
  predicate Selected(q: Query, t: Tour)
  {
    && (TruthyString(q.destination) ==> MatchesDestination(t, q.destination.value))
    && (TruthyNumber(q.maxPrice) ==> t.price <= q.maxPrice.value)
    && (TruthyString(q.duration) ==> t.duration == q.duration.value)
  }

  function BySelection(q: Query): Tour -> bool
  {
    (t: Tour) => Selected(q, t)
  }

  /** A filter applied under a condition is a filter by "condition implies predicate". */
  lemma FilterWhen(s: seq<Tour>, cond: bool, p: Tour -> bool, pc: Tour -> bool)
    requires forall t :: pc(t) == (cond ==> p(t))
    ensures (if cond then Filter(s, p) else s) == Filter(s, pc)
  {
  }

  /** The three successive filters amount to one filter by `Selected`. */
  lemma SearchIsOneFilter(tours: seq<Tour>, q: Query)
    ensures Search(tours, q) == Filter(tours, BySelection(q))
  {
    var d := (t: Tour) => TruthyString(q.destination) ==> MatchesDestination(t, q.destination.value);
    var p := (t: Tour) => TruthyNumber(q.maxPrice) ==> t.price <= q.maxPrice.value;
    var u := (t: Tour) => TruthyString(q.duration) ==> t.duration == q.duration.value;
    var dp := (t: Tour) => d(t) && p(t);
    var afterDestination :=
      if TruthyString(q.destination) then Filter(tours, ByDestination(q.destination.value)) else tours;
    var afterPrice :=
      if TruthyNumber(q.maxPrice) then Filter(afterDestination, ByMaxPrice(q.maxPrice.value)) else afterDestination;
    if TruthyString(q.destination) {
      FilterWhen(tours, true, ByDestination(q.destination.value), d);
    } else {
      FilterWhen(tours, false, (t: Tour) => true, d);
    }
    if TruthyNumber(q.maxPrice) {
      FilterWhen(afterDestination, true, ByMaxPrice(q.maxPrice.value), p);
    } else {
      FilterWhen(afterDestination, false, (t: Tour) => true, p);
    }
    FilterTwice(tours, d, p, dp);
    assert afterPrice == Filter(tours, dp);
    if TruthyString(q.duration) {
      FilterWhen(afterPrice, true, ByDuration(q.duration.value), u);
    } else {
      FilterWhen(afterPrice, false, (t: Tour) => true, u);
    }
    FilterTwice(tours, dp, u, BySelection(q));
  }

  /**
   * Search keeps catalogue order, returns only tours satisfying every
   * supplied filter, and returns every such tour (each as often as the
   * catalogue lists it).
   */
  lemma SearchCorrect(tours: seq<Tour>, q: Query)
    ensures IsSubsequence(Search(tours, q), tours)
    ensures forall t :: t in Search(tours, q) ==> t in tours && Selected(q, t)
    ensures forall t :: multiset(Search(tours, q))[t] == if Selected(q, t) then multiset(tours)[t] else 0
  {
    SearchIsOneFilter(tours, q);
    FilterIsSubsequence(tours, BySelection(q));
    forall t
      ensures multiset(Search(tours, q))[t] == if Selected(q, t) then multiset(tours)[t] else 0
    {
      FilterCounts(tours, BySelection(q), t);
    }
  }

  /** Falsy arguments impose no constraint: with none truthy, the whole catalogue comes back. */
  lemma NoFilterReturnsCatalogue(tours: seq<Tour>, q: Query)
    requires !TruthyString(q.destination) && !TruthyNumber(q.maxPrice) && !TruthyString(q.duration)
    ensures Search(tours, q) == tours
    ensures forall t :: Selected(q, t)
  {
  }

  /**
   * The destination filter keeps a tour exactly when the lower-cased query
   * occurs in the lower-cased destination or in the lower-cased name.
   */
  lemma DestinationMatchIsSubstring(t: Tour, query: string)
    ensures MatchesDestination(t, query) <==>
      (exists k :: OccursAt(Lower(query), Lower(t.destination), k)) ||
      (exists k :: OccursAt(Lower(query), Lower(t.name), k))
  {
    IncludesIsSubstring(Lower(t.destination), Lower(query));
    IncludesIsSubstring(Lower(t.name), Lower(query));
  }

  /** The case of the query's letters does not matter. */
  lemma DestinationMatchIgnoresCase(t: Tour, query: string)
    ensures MatchesDestination(t, query) == MatchesDestination(t, Lower(query))
  {
    LowerFacts(query);
  }

  /** Searching by a catalogue tour's own destination finds that tour. */
  lemma SearchByOwnDestination(tours: seq<Tour>, t: Tour)
    requires t in tours
    ensures t in Search(tours, Query(Some(t.destination), None, None))
  {
    var q := Query(Some(t.destination), None, None);
    IncludesItself(Lower(t.destination));
    if TruthyString(q.destination) {
      FilterComplete(tours, ByDestination(t.destination), t);
    }
  }

  /**
   * Searching with a tour's own non-zero price as the budget finds that tour
   * and no tour that costs more; a budget of zero is falsy and filters nothing.
   */
  lemma SearchByOwnPrice(tours: seq<Tour>, t: Tour, u: Tour)
    requires t in tours
    ensures t.price != 0 ==> t in Search(tours, Query(None, Some(t.price), None))
    ensures t.price != 0 && u.price > t.price ==> u !in Search(tours, Query(None, Some(t.price), None))
    ensures t.price == 0 ==> Search(tours, Query(None, Some(t.price), None)) == tours
  {
    if t.price != 0 {
      FilterComplete(tours, ByMaxPrice(t.price), t);
    }
  }

  /** Of the four seeded tours, exactly the Boracay tour lasts "4D3N". */
  lemma SearchByDurationScenario()
    ensures Search(DemoTours, Query(None, None, Some("4D3N"))) == [DemoTours[1]]
  {
  }
}
