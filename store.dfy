/**
 * The server's card table and the handlers that change it. The table, the
 * snapshot file and the ordered record of what the server did (writes of the
 * file, broadcasts to every client, the greeting of a new client) are the
 * fields of one object; each handler is a method on it.
 */
module Store {
  import opened Cards

  /** What the snapshot file holds, as `loadCards` finds it. */
  datatype Snapshot =
    | Missing                         // no file at the path
    | Unparseable                     // a file whose text is not valid JSON
    | Stored(cards: seq<Card>)        // a file holding this list

  /** What the server announces to all clients. */
  datatype Event =
    | CardAdded(card: Card)
    | CardUpdated(card: Card)
    | CardDeleted(id: Option<int>)

  /** A side effect, in the order the server performs them. */
  datatype Effect =
    | Persisted(snapshot: seq<Card>)  // the file was overwritten with this list
    | Broadcast(event: Event)         // an event went to every connected client
    | Greeted(snapshot: seq<Card>)    // a newly connected client got this list

  /** What a handler answers its caller. */
  datatype Reply = Sent(card: Card) | Success | NotFound

  /** The list a (re)start reads from the file: empty when it is absent or unreadable. */
  function Loaded(file: Snapshot): (r: seq<Card>)
    ensures file == Missing || file == Unparseable ==> r == []
    ensures file.Stored? ==> r == file.cards
  {
    if file.Stored? then file.cards else []
  }

  class CardStore {
    var cards: seq<Card>
    var file: Snapshot
    var effects: seq<Effect>

    /** Restarting the server now would bring back exactly the cards in memory. */
    ghost predicate Durable()
      reads this
    {
      Loaded(file) == cards
    }

    /** Start-up: the table is filled from whatever the file holds. */
    constructor (onDisk: Snapshot)
      ensures file == onDisk && effects == []
      ensures cards == Loaded(onDisk)
      ensures onDisk.Stored? ==> cards == onDisk.cards
      ensures !onDisk.Stored? ==> cards == []
      ensures Durable()
    {
      file := onDisk;
      cards := [];
      effects := [];
      new;
      Load();
    }

    /** `loadCards`: replace the table by the file's list, or by [] on a missing or unparseable file. */
    method Load()
      modifies this`cards
      ensures file.Stored? ==> cards == file.cards
      ensures !file.Stored? ==> cards == []
      ensures Durable()
    {
      match file
      case Missing =>
        cards := [];
      case Unparseable =>
        cards := [];
      case Stored(list) =>
        cards := list;
    }

    /** `saveCards`: overwrite the file with the whole table. */
    method Save()
      modifies this`file, this`effects
      ensures file == Stored(cards)
      ensures effects == old(effects) + [Persisted(cards)]
      ensures Durable()
    {
      file := Stored(cards);
      effects := effects + [Persisted(cards)];
    }

    /** `io.emit`: announce one event to every client. */
    method Emit(event: Event)
      modifies this`effects
      ensures effects == old(effects) + [Broadcast(event)]
    {
      effects := effects + [Broadcast(event)];
    }

    /** GET /cards: the whole table. */
    method List() returns (list: seq<Card>)
      ensures list == cards
    {
      list := cards;
    }

    /** A client connects and receives the current table, and only that client does. */
    method Connect()
      modifies this`effects
      ensures effects == old(effects) + [Greeted(cards)]
    {
      effects := effects + [Greeted(cards)];
    }

    /**
     * POST /cards: append `{ id: now, ...body }`, save, announce it, answer it.
     * `now` is the clock reading; nothing keeps it apart from ids already used.
     */
    method Create(body: map<string, Value>, now: int) returns (reply: Reply)
      modifies this
      ensures reply == Sent(NewCard(body, now))
      ensures cards == old(cards) + [NewCard(body, now)]
      ensures file == Stored(cards) && Durable()
      ensures effects == old(effects) + [Persisted(cards), Broadcast(CardAdded(NewCard(body, now)))]
    {
      var card := NewCard(body, now);
      cards := cards + [card];
      Save();
      Emit(CardAdded(card));
      reply := Sent(card);
    }

    /**
     * PUT /cards/:id: merge `body` into the first card whose id is `id`, save,
     * announce and answer the merged card; with no such card, answer NotFound
     * and do nothing else.
     */
    method Update(id: Option<int>, body: map<string, Value>) returns (reply: Reply)
      requires Durable()
      modifies this
      ensures reply.NotFound? <==> FindIndex(old(cards), id) < 0
      ensures reply.NotFound? ==>
        cards == old(cards) && file == old(file) && effects == old(effects)
      ensures !reply.NotFound? ==>
        var i := FindIndex(old(cards), id);
        var merged := Spread(old(cards)[i], body);
        && reply == Sent(merged)
        && |cards| == |old(cards)|
        && cards[i] == merged
        && (forall j :: 0 <= j < |cards| && j != i ==> cards[j] == old(cards)[j])
        && file == Stored(cards)
        && effects == old(effects) + [Persisted(cards), Broadcast(CardUpdated(merged))]
      ensures Durable()
    {
      var i := FindIndex(cards, id);
      if i >= 0 {
        cards := cards[i := Spread(cards[i], body)];
        Save();
        Emit(CardUpdated(cards[i]));
        reply := Sent(cards[i]);
      } else {
        reply := NotFound;
      }
    }

    /**
     * DELETE /cards/:id: keep the cards whose id is not `id`, save, announce
     * the id and answer success, whether or not anything was removed.
     */
    method Delete(id: Option<int>) returns (reply: Reply)
      modifies this
      ensures reply == Success
      ensures cards == Without(old(cards), id)
      ensures cards == old(cards) <==> FindIndex(old(cards), id) < 0
      ensures forall c :: multiset(cards)[c] == if Matches(c, id) then 0 else multiset(old(cards))[c]
      ensures file == Stored(cards) && Durable()
      ensures effects == old(effects) + [Persisted(cards), Broadcast(CardDeleted(id))]
    {
      cards := Without(cards, id);
      Save();
      Emit(CardDeleted(id));
      reply := Success;
      WithoutUnchangedIffAbsent(old(cards), id);
      WithoutCounts(old(cards), id);
    }
  }

  /**
   * A client of the handlers: create `{title: "A"}`, merge in
   * `{title: "B", color: "red"}`, delete an id nobody has, then delete the card;
   * the file then holds the empty list.
   */
  method Walkthrough(now: int) returns (created: Reply, updated: Reply, missed: seq<Card>, final: seq<Card>, fileAtEnd: Snapshot)
    requires now != 999999
    ensures created == Sent(map[IdKey := Num(now as real), "title" := Str("A")])
    ensures updated == Sent(map[IdKey := Num(now as real), "title" := Str("B"), "color" := Str("red")])
    ensures missed == [map[IdKey := Num(now as real), "title" := Str("B"), "color" := Str("red")]]
    ensures final == []
    ensures fileAtEnd == Stored([])
  {
    var stamp := Num(now as real);
    var a := map[IdKey := stamp, "title" := Str("A")];
    var b := map[IdKey := stamp, "title" := Str("B"), "color" := Str("red")];
    var store := new CardStore(Missing);

    created := store.Create(map["title" := Str("A")], now);
    assert NewCard(map["title" := Str("A")], now) == a;
    assert store.cards == [a];
    assert Matches(a, Some(now));

    updated := store.Update(Some(now), map["title" := Str("B"), "color" := Str("red")]);
    assert Spread(a, map["title" := Str("B"), "color" := Str("red")]) == b;
    assert store.cards == [b];

    var reply := store.Delete(Some(999999));
    assert !Matches(b, Some(999999));
    missed := store.cards;

    reply := store.Delete(Some(now));
    assert Matches(b, Some(now));
    assert Without([b], Some(now)) == Without([], Some(now));
    final := store.cards;
    fileAtEnd := store.file;
  }
}
