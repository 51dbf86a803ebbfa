/** The database behind the controllers, held in memory: `find`, `findById` and `save`
    become reads of and appends to the sequences of a `Database` object. */
module Store {
  import opened Wrappers
  import opened Models

  /** `findById` over a sequence of offerings: an offering with that id, if any. */
  function FindIn(offerings: seq<Offering>, id: string): (r: Option<Offering>)
    ensures r.Some? ==> r.value in offerings && r.value.id == id
    ensures r.None? <==> forall i :: 0 <= i < |offerings| ==> offerings[i].id != id
  {
    if offerings == [] then None
    else if offerings[0].id == id then Some(offerings[0])
    else FindIn(offerings[1..], id)
  }

  /** Appending an offering with a new id: the new one is found under its id and every
      other lookup answers as before. */
  lemma {:induction false} FindInAppend(offerings: seq<Offering>, o: Offering, id: string)
    requires FindIn(offerings, o.id).None?
    ensures FindIn(offerings + [o], id) == if id == o.id then Some(o) else FindIn(offerings, id)
  {
    if offerings != [] {
      assert (offerings + [o])[1..] == offerings[1..] + [o];
      FindInAppend(offerings[1..], o, id);
    } else {
      assert offerings + [o] == [o];
    }
  }

  /** Offering ids are distinct and present. */
  ghost predicate UniqueIds(offerings: seq<Offering>) {
    && (forall i :: 0 <= i < |offerings| ==> offerings[i].id != "")
    && (forall i, j :: 0 <= i < j < |offerings| ==> offerings[i].id != offerings[j].id)
  }

  class Database {
    var offerings: seq<Offering>
    var bookings: seq<Booking>
    var users: map<string, User>

    /** Only schema-valid documents are ever saved, offerings have distinct ids and no user
        has the empty id. */
    ghost predicate Valid()
      reads this
    {
      && UniqueIds(offerings)
      && (forall i :: 0 <= i < |offerings| ==> OfferingSchemaValid(offerings[i]))
      && (forall i :: 0 <= i < |bookings| ==> BookingSchemaValid(bookings[i]))
      && "" !in users
    }

    constructor(registered: map<string, User>)
      requires "" !in registered
      ensures Valid()
      ensures offerings == [] && bookings == [] && users == registered
    {
      offerings := [];
      bookings := [];
      users := registered;
    }

    /** `ServiceOffering.findById(id)`. */
    function FindOffering(id: string): (r: Option<Offering>)
      reads this
      ensures r.Some? ==> r.value in offerings && r.value.id == id
      ensures r.None? <==> forall i :: 0 <= i < |offerings| ==> offerings[i].id != id
    {
      FindIn(offerings, id)
    }

    /** `save()` of a new offering document: the schema validators run first, and an
        invalid document is not stored. `o.id` is the new document's id. */
    method SaveOffering(o: Offering) returns (saved: bool)
      requires Valid()
      requires o.id != "" && FindOffering(o.id).None?
      modifies this
      ensures Valid()
      ensures saved <==> OfferingSchemaValid(o)
      ensures offerings == if saved then old(offerings) + [o] else old(offerings)
      ensures bookings == old(bookings) && users == old(users)
    {
      saved := OfferingSchemaValid(o);
      if saved {
        offerings := offerings + [o];
      }
    }

    /** `save()` of a new booking document. */
    method SaveBooking(b: Booking) returns (saved: bool)
      requires Valid()
      modifies this
      ensures Valid()
      ensures saved <==> BookingSchemaValid(b)
      ensures bookings == if saved then old(bookings) + [b] else old(bookings)
      ensures offerings == old(offerings) && users == old(users)
    {
      saved := BookingSchemaValid(b);
      if saved {
        bookings := bookings + [b];
      }
    }
  }
}
