/** The records of the application: locations, users, messages, chats and
    the tabs of the main screen. They carry no behaviour of their own. */
module Types {

  datatype Option<+T> = None | Some(value: T)

  /** A position in decimal degrees. */
  datatype Location = Location(lat: real, lng: real)

  /** A user card. `distance` is the distance in meters from the current
      user, absent until the application has computed it. */
  datatype User = User(
    id: string,
    name: string,
    avatar: string,
    location: Location,
    lastActive: int,
    isGhostMode: bool,
    distance: Option<real>)

  datatype Message = Message(id: string, senderId: string, text: string, timestamp: int)

  datatype Chat = Chat(id: string, participants: (string, string), lastMessage: Option<Message>)

  datatype AppTab = Nearby | Map | Chats | Profile | Settings

  /** The id under which the signed-in user appears in chats and messages. */
  const MeId: string := "me"

  /** Distances up to this many meters count as in range. */
  const RangeMeters: real := 1000.0

  /** `distance! > 1000` as JavaScript evaluates it: an absent distance
      compares false. */
  predicate BeyondRange(d: Option<real>)
  {
    d.Some? && d.value > RangeMeters
  }

  /** `distance! <= 1000` as JavaScript evaluates it: an absent distance
      compares false here too. */
  predicate WithinRange(d: Option<real>)
  {
    d.Some? && d.value <= RangeMeters
  }

  /** A defined distance is on exactly one side of the threshold, an absent
      one on neither; exactly 1000 meters is within range. */
  lemma RangeSides(d: Option<real>)
    ensures d.Some? <==> (WithinRange(d) || BeyondRange(d))
    ensures !(WithinRange(d) && BeyondRange(d))
    ensures WithinRange(Some(RangeMeters)) && !BeyondRange(Some(RangeMeters))
  {
  }
}
