/**
 * The card records of the whiteboard server and the pure pieces of its
 * handlers: the object spread that builds and merges cards, the strict-equality
 * test on `id`, the first-match search used by update and the filter used by
 * delete.
 */
module Cards {

  /** Stands for a value that may be missing; `None` is what `parseInt` gives as NaN. */
  datatype Option<+T> = None | Some(value: T)

  /** A JSON value, as a request body can carry it. A JavaScript number is a `real`. */
  datatype Value =
    | Null
    | Bool(b: bool)
    | Num(x: real)
    | Str(s: string)
    | Arr(items: seq<Value>)
    | Obj(fields: map<string, Value>)

  /** An open-field record: its own enumerable properties, by name. */
  type Card = map<string, Value>

  const IdKey: string := "id"

  /** The object spread `{ ...base, ...over }`: later properties win. */
  function Spread(base: map<string, Value>, over: map<string, Value>): (r: map<string, Value>)
    ensures r.Keys == base.Keys + over.Keys
    ensures forall k :: k in over ==> r[k] == over[k]
    ensures forall k :: k in base && k !in over ==> r[k] == base[k]
  {
    base + over
  }

  /**
   * The record a create builds: `{ id: now, ...body }`. Every body field is kept
   * with its value; the clock reading is the id only when the body names none.
   */
  function NewCard(body: map<string, Value>, now: int): (card: Card)
    ensures card.Keys == body.Keys + {IdKey}
    ensures forall k :: k in body ==> card[k] == body[k]
    ensures IdKey !in body ==> card[IdKey] == Num(now as real)
    ensures IdKey in body ==> card[IdKey] == body[IdKey]
  {
    Spread(map[IdKey := Num(now as real)], body)
  }

  /**
   * `c.id === id` for the number `parseInt` gave. A card without an `id`, or
   * with an `id` that is not that number, does not match; NaN matches nothing.
   */
  predicate Matches(c: Card, id: Option<int>)
    ensures id.None? ==> !Matches(c, id)
    ensures IdKey !in c ==> !Matches(c, id)
    ensures IdKey in c && !c[IdKey].Num? ==> !Matches(c, id)
    ensures Matches(c, id) <==> id.Some? && IdKey in c && c[IdKey].Num? && c[IdKey].x == id.value as real
  {
    id.Some? && IdKey in c && c[IdKey] == Num(id.value as real)
  }

  /** `findIndex(c => c.id === id)`: the first matching position, or -1. */
  function FindIndex(cs: seq<Card>, id: Option<int>): (r: int)
    ensures -1 <= r < |cs|
    ensures r >= 0 ==> Matches(cs[r], id) && forall j :: 0 <= j < r ==> !Matches(cs[j], id)
    ensures r < 0 ==> forall j :: 0 <= j < |cs| ==> !Matches(cs[j], id)
  {
    if cs == [] then -1
    else if Matches(cs[0], id) then 0
    else
      var r := FindIndex(cs[1..], id);
      assert forall j :: 1 <= j < |cs| ==> cs[j] == cs[1..][j - 1];
      if r < 0 then -1 else r + 1
  }

  /** `filter(c => c.id !== id)`: the cards that do not match, in their order. */
  function Without(cs: seq<Card>, id: Option<int>): (r: seq<Card>)
    ensures |r| <= |cs|
    ensures forall c :: c in r ==> c in cs && !Matches(c, id)
  {
    if cs == [] then []
    else if Matches(cs[0], id) then Without(cs[1..], id)
    else [cs[0]] + Without(cs[1..], id)
  }

  /** The filter keeps relative order: it works on each part of a list separately. */
  lemma {:induction false} WithoutConcat(a: seq<Card>, b: seq<Card>, id: Option<int>)
    ensures Without(a + b, id) == Without(a, id) + Without(b, id)
  {
    if a == [] {
      assert a + b == b;
    } else {
      assert (a + b)[0] == a[0];
      assert (a + b)[1..] == a[1..] + b;
      WithoutConcat(a[1..], b, id);
    }
  }

  /** Every matching card is gone and every other card keeps its multiplicity. */
  lemma {:induction false} WithoutCounts(cs: seq<Card>, id: Option<int>)
    ensures forall c :: multiset(Without(cs, id))[c] == if Matches(c, id) then 0 else multiset(cs)[c]
  {
    if cs != [] {
      WithoutCounts(cs[1..], id);
      assert cs == [cs[0]] + cs[1..];
      assert multiset(cs) == multiset{cs[0]} + multiset(cs[1..]);
    }
  }

  /** Deleting twice is deleting once. */
  lemma {:induction false} WithoutIdempotent(cs: seq<Card>, id: Option<int>)
    ensures Without(Without(cs, id), id) == Without(cs, id)
  {
    if cs != [] {
      WithoutIdempotent(cs[1..], id);
      if !Matches(cs[0], id) {
        var rest := Without(cs[1..], id);
        assert ([cs[0]] + rest)[0] == cs[0];
        assert ([cs[0]] + rest)[1..] == rest;
      }
    }
  }

  /** A list with a matching card gets strictly shorter under the filter. */
  lemma {:induction false} WithoutShrinks(cs: seq<Card>, id: Option<int>, i: nat)
    requires i < |cs| && Matches(cs[i], id)
    ensures |Without(cs, id)| < |cs|
  {
    if i > 0 {
      assert cs[1..][i - 1] == cs[i];
      WithoutShrinks(cs[1..], id, i - 1);
    }
  }

  /** A list without a matching card is left as it is. */
  lemma {:induction false} WithoutNoMatch(cs: seq<Card>, id: Option<int>)
    requires forall j :: 0 <= j < |cs| ==> !Matches(cs[j], id)
    ensures Without(cs, id) == cs
  {
    if cs != [] {
      assert forall j :: 1 <= j < |cs| ==> cs[1..][j - 1] == cs[j];
      WithoutNoMatch(cs[1..], id);
      assert [cs[0]] + cs[1..] == cs;
    }
  }

  /**
   * Delete changes the list exactly when update would have found a card:
   * the two handlers agree on what "this id is present" means.
   */
  lemma WithoutUnchangedIffAbsent(cs: seq<Card>, id: Option<int>)
    ensures Without(cs, id) == cs <==> FindIndex(cs, id) < 0
  {
    var i := FindIndex(cs, id);
    if i < 0 {
      WithoutNoMatch(cs, id);
    } else {
      WithoutShrinks(cs, id, i);
    }
  }

  /** The first matching position is the one `FindIndex` reports. */
  lemma FindIndexIsFirst(cs: seq<Card>, id: Option<int>, i: nat)
    requires i < |cs| && Matches(cs[i], id)
    requires forall j :: 0 <= j < i ==> !Matches(cs[j], id)
    ensures FindIndex(cs, id) == i
  {
  }

  /**
   * Two creates in the same millisecond, with bodies that name no id, give two
   * cards with the same id: update then reaches only the first of them, and
   * delete removes both.
   */
  lemma SameTickCollision(pre: seq<Card>, a: map<string, Value>, b: map<string, Value>, now: int)
    requires IdKey !in a && IdKey !in b
    requires FindIndex(pre, Some(now)) < 0
    ensures NewCard(a, now)[IdKey] == NewCard(b, now)[IdKey]
    ensures FindIndex(pre + [NewCard(a, now), NewCard(b, now)], Some(now)) == |pre|
    ensures Without(pre + [NewCard(a, now), NewCard(b, now)], Some(now)) == pre
  {
    var c1, c2 := NewCard(a, now), NewCard(b, now);
    assert Matches(c1, Some(now)) && Matches(c2, Some(now));
    var cs := pre + [c1, c2];
    assert cs[|pre|] == c1;
    assert forall j :: 0 <= j < |pre| ==> cs[j] == pre[j];
    FindIndexIsFirst(cs, Some(now), |pre|);
    assert Without([c1, c2], Some(now)) == [] by {
      assert [c1, c2][1..] == [c2];
      assert [c2][1..] == [];
    }
    WithoutConcat(pre, [c1, c2], Some(now));
    WithoutNoMatch(pre, Some(now));
  }
}
