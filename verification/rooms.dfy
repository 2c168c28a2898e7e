/**
 The closed set of rooms whose lights the assistant may switch, with the
 string value each member carries and the lookup by value that turns a
 tool argument back into a member.
 */
module Rooms {
  import opened Wrappers

  datatype Room = Bedroom | LivingRoom | Kitchen | Bathroom | Office

  /** The member's value, as listed in the enumeration. */
  function Value(room: Room): (v: string)
    ensures |v| > 0
    ensures ',' !in v && '\n' !in v
  {
    match room
    case Bedroom => "bedroom"
    case LivingRoom => "living room"
    case Kitchen => "kitchen"
    case Bathroom => "bathroom"
    case Office => "office"
  }

  /**
   Lookup by value (`Room(s)` in the enumeration's own terms): `None`
   when no member carries `s`, which the enumeration reports as an error.
   */
  function FromValue(s: string): (r: Option<Room>)
    ensures r.Some? ==> Value(r.value) == s
    ensures r.None? ==> forall room :: Value(room) != s
  {
    if s == "bedroom" then Some(Bedroom)
    else if s == "living room" then Some(LivingRoom)
    else if s == "kitchen" then Some(Kitchen)
    else if s == "bathroom" then Some(Bathroom)
    else if s == "office" then Some(Office)
    else None
  }

  /** Every member is found again from its own value. */
  lemma ValueRoundTrip(room: Room)
    ensures FromValue(Value(room)) == Some(room)
  {
  }

  /** Distinct members carry distinct values. */
  lemma ValueInjective(a: Room, b: Room)
    ensures Value(a) == Value(b) ==> a == b
  {
    ValueRoundTrip(a);
    ValueRoundTrip(b);
  }
}
