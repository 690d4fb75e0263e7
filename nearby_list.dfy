/** The Discover list: users split at the 1000 m threshold into an active
    section and a greyed "Just Out of Reach" section. */
module NearbyList {
  import opened Types
  import opened Seqs
  import Chat

  predicate IsNearby(u: User)
  {
    WithinRange(u.distance)
  }

  predicate IsBeyond(u: User)
  {
    BeyondRange(u.distance)
  }

  predicate HasNoDistance(u: User)
  {
    u.distance.None?
  }

  /** `users.filter(u => u.distance! <= 1000)`. */
  function NearbyOnly(users: seq<User>): (r: seq<User>)
    ensures forall u :: u in r <==> u in users && IsNearby(u)
    ensures IsSubsequence(r, users)
  {
    FilterIsSubsequence(users, IsNearby);
    Filter(users, IsNearby)
  }

  /** `users.filter(u => u.distance! > 1000)`. */
  function OutOfReach(users: seq<User>): (r: seq<User>)
    ensures forall u :: u in r <==> u in users && IsBeyond(u)
    ensures IsSubsequence(r, users)
  {
    FilterIsSubsequence(users, IsBeyond);
    Filter(users, IsBeyond)
  }

  /** Every user with a distance lands in exactly one of the two sections,
      and a user without one in neither: together with the users that have no
      distance the two sections hold each input user exactly as often as the
      input does. */
  lemma Partition(users: seq<User>)
    ensures multiset(NearbyOnly(users)) + multiset(OutOfReach(users))
            + multiset(Filter(users, HasNoDistance)) == multiset(users)
    ensures |NearbyOnly(users)| + |OutOfReach(users)| + |Filter(users, HasNoDistance)| == |users|
    ensures forall u :: u in users && u.distance.Some? ==>
              (u in NearbyOnly(users) <==> u !in OutOfReach(users))
    ensures forall u :: u in users && u.distance.None? ==>
              u !in NearbyOnly(users) && u !in OutOfReach(users)
  {
    forall u: User ensures (IsNearby(u) && !IsBeyond(u) && !HasNoDistance(u))
                        || (!IsNearby(u) && IsBeyond(u) && !HasNoDistance(u))
                        || (!IsNearby(u) && !IsBeyond(u) && HasNoDistance(u)) {
      RangeSides(u.distance);
    }
    FilterPartition(users, IsNearby, IsBeyond, HasNoDistance);
  }

  /** When every user has a distance, the two section lengths add up to the
      number of users. */
  lemma PartitionComplete(users: seq<User>)
    requires forall i :: 0 <= i < |users| ==> users[i].distance.Some?
    ensures |NearbyOnly(users)| + |OutOfReach(users)| == |users|
  {
    Partition(users);
    FilterNone(users, HasNoDistance);
  }

  /** "Nobody in range right now" replaces the active section when it is
      empty. */
  predicate EmptyStateShown(users: seq<User>)
  {
    |NearbyOnly(users)| == 0
  }

  /** The "Just Out of Reach" section is rendered when it has a card. */
  predicate OutOfReachShown(users: seq<User>)
  {
    |OutOfReach(users)| > 0
  }

  /** The empty state shows iff no user is within 1000 m, and the second
      section shows iff some user is beyond 1000 m. */
  lemma {:induction false} SectionVisibility(users: seq<User>)
    ensures EmptyStateShown(users) <==> forall i :: 0 <= i < |users| ==> !IsNearby(users[i])
    ensures OutOfReachShown(users) <==> exists i :: 0 <= i < |users| && IsBeyond(users[i])
  {
    if !EmptyStateShown(users) {
      assert NearbyOnly(users)[0] in NearbyOnly(users);
    }
    if OutOfReachShown(users) {
      assert OutOfReach(users)[0] in OutOfReach(users);
    }
    if exists i :: 0 <= i < |users| && IsNearby(users[i]) {
      var i :| 0 <= i < |users| && IsNearby(users[i]);
      assert users[i] in NearbyOnly(users);
    }
    if exists i :: 0 <= i < |users| && IsBeyond(users[i]) {
      var i :| 0 <= i < |users| && IsBeyond(users[i]);
      assert users[i] in OutOfReach(users);
    }
  }

  /** One rendered `UserCard`. */
  datatype Card = Card(user: User, isOutOfRange: bool)

  /** `() => !isOutOfRange && onSelect(user)`: what `onSelect` receives. */
  function CardClick(card: Card): (selected: Option<User>)
    ensures card.isOutOfRange ==> selected.None?
    ensures !card.isOutOfRange ==> selected == Some(card.user)
  {
    if !card.isOutOfRange then Some(card.user) else None
  }

  function AsCards(users: seq<User>, isOutOfRange: bool): (cards: seq<Card>)
    ensures |cards| == |users|
    ensures forall i :: 0 <= i < |users| ==> cards[i] == Card(users[i], isOutOfRange)
  {
    seq(|users|, i requires 0 <= i < |users| => Card(users[i], isOutOfRange))
  }

  /** The cards in screen order: the active section, then the greyed one. */
  function Cards(users: seq<User>): (cards: seq<Card>)
    ensures |cards| == |NearbyOnly(users)| + |OutOfReach(users)|
    ensures forall k :: 0 <= k < |NearbyOnly(users)| ==> cards[k] == Card(NearbyOnly(users)[k], false)
    ensures forall k :: |NearbyOnly(users)| <= k < |cards| ==>
              cards[k] == Card(OutOfReach(users)[k - |NearbyOnly(users)|], true)
  {
    AsCards(NearbyOnly(users), false) + AsCards(OutOfReach(users), true)
  }

  /** Clicking any card of the list either selects nothing or selects a user
      of the list within 1000 m; greyed cards never select. */
  lemma ClickSelectsOnlyNearby(users: seq<User>, k: nat)
    requires k < |Cards(users)|
    ensures Cards(users)[k].isOutOfRange ==> CardClick(Cards(users)[k]).None?
    ensures match CardClick(Cards(users)[k])
            case Some(u) => u in users && IsNearby(u) && u.distance.value <= RangeMeters
            case None => Cards(users)[k].isOutOfRange
  {
    var n := |NearbyOnly(users)|;
    if k < n {
      assert Cards(users)[k] == Card(NearbyOnly(users)[k], false);
      assert NearbyOnly(users)[k] in NearbyOnly(users);
    } else {
      assert Cards(users)[k] == Card(OutOfReach(users)[k - n], true);
    }
  }

  /** The list and the chat window agree on the threshold: a user with a
      distance is in the active section exactly when the chat shows no range
      warning, so exactly 1000 m is nearby in both. */
  lemma ThresholdAgreesWithChat(u: User)
    requires u.distance.Some?
    ensures IsNearby(u) <==> !Chat.OutOfRange(u)
    ensures u.distance == Some(RangeMeters) ==> IsNearby(u) && !Chat.OutOfRange(u)
  {
    RangeSides(u.distance);
  }
}
