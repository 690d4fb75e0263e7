/** The top-level application: the sign-in gate, the current user and
    location, the distance-sorted nearby list, the tab header, the chat
    list and the navbar wiring. */
module App {
  import opened Types
  import opened Seqs
  import Navbar

  /** The position used when the browser refuses or fails to locate the
      user: Los Angeles. */
  const Fallback: Location := Location(34.0522, -118.2437)

  /** The header subtitle of each tab. The switch covers every tab, so its
      `default` branch (the empty title) cannot be taken. */
  function TabTitle(tab: AppTab): (t: string)
    ensures t != ""
    ensures t == "Settings" <==> tab == Settings
  {
    match tab
    case Nearby => "Discover"
    case Map => "Explore"
    case Chats => "Inbox"
    case Profile => "Me"
    case Settings => "Settings"
  }

  /** Titles are never empty and tell the tabs apart. */
  lemma TabTitleInjective(a: AppTab, b: AppTab)
    ensures TabTitle(a) != ""
    ensures TabTitle(a) == TabTitle(b) ==> a == b
  {
  }

  /** The subtitle of the header. The header is hidden on Settings, which
      draws its own, so the "Settings" title of the switch is never shown. */
  function HeaderTitle(activeTab: AppTab): (t: Option<string>)
    ensures t.None? <==> activeTab == Settings
    ensures t.Some? ==> t.value == TabTitle(activeTab) && t.value != "Settings"
  {
    if activeTab == Settings then None else Some(TabTitle(activeTab))
  }

  /** The tab the navbar is told is active: Settings lives under Profile. */
  function NavbarTab(activeTab: AppTab): (t: AppTab)
    ensures t != Settings
    ensures activeTab != Settings ==> t == activeTab
    ensures activeTab == Settings ==> t == Profile
  {
    if activeTab == Settings then Profile else activeTab
  }

  /** Whatever tab is active, exactly one navbar tab is highlighted; for
      Settings it is the Profile tab. */
  lemma {:induction false} ExactlyOneHighlighted(activeTab: AppTab)
    ensures exists i :: 0 <= i < |Navbar.Tabs| && Navbar.Highlights(NavbarTab(activeTab))[i]
    ensures forall i, j ::
              (0 <= i < |Navbar.Tabs| && 0 <= j < |Navbar.Tabs|
               && Navbar.Highlights(NavbarTab(activeTab))[i]
               && Navbar.Highlights(NavbarTab(activeTab))[j]) ==> i == j
    ensures activeTab == Settings ==> Navbar.Highlights(NavbarTab(activeTab))[3]
  {
    var h := Navbar.Highlights(NavbarTab(activeTab));
    var i := match NavbarTab(activeTab)
             case Nearby => 0 case Map => 1 case Chats => 2 case Profile => 3 case Settings => 0;
    assert h[i];
    forall i, j | 0 <= i < |Navbar.Tabs| && 0 <= j < |Navbar.Tabs| && h[i] && h[j] ensures i == j {
      Navbar.AtMostOneHighlighted(NavbarTab(activeTab), i, j);
    }
  }

  /** After the `i`-th navbar button is clicked, the highlighted tab is that
      button and no other. */
  lemma ClickedTabIsHighlighted(i: nat)
    requires i < |Navbar.Tabs|
    ensures forall j :: 0 <= j < |Navbar.Tabs| ==>
              (Navbar.Highlights(NavbarTab(Navbar.TabClick(i)))[j] <==> j == i)
  {
    forall j | 0 <= j < |Navbar.Tabs| && Navbar.Highlights(NavbarTab(Navbar.TabClick(i)))[j]
      ensures j == i
    {
      Navbar.AtMostOneHighlighted(Navbar.TabClick(i), i, j);
    }
  }

  /** `u.distance || 0`, the sort key: a missing distance counts as 0. */
  function DistanceKey(u: User): (k: real)
    ensures u.distance.Some? ==> k == u.distance.value
    ensures u.distance.None? ==> k == 0.0
  {
    match u.distance
    case Some(d) => d
    case None => 0.0
  }

  /** `{ ...u, distance: calculateDistance(here, u.location) }`. */
  function Annotated(u: User, here: Location, dist: (Location, Location) -> real): (v: User)
    ensures v.distance == Some(dist(here, u.location))
    ensures v.(distance := u.distance) == u
  {
    u.(distance := Some(dist(here, u.location)))
  }

  /** `rawUsers.map(...)`. */
  function Annotate(raw: seq<User>, here: Location, dist: (Location, Location) -> real): (r: seq<User>)
    ensures |r| == |raw|
    ensures forall i :: 0 <= i < |raw| ==> r[i] == Annotated(raw[i], here, dist)
  {
    seq(|raw|, i requires 0 <= i < |raw| => Annotated(raw[i], here, dist))
  }

  /** The nearby list the app derives from the fixture users: each one
      annotated with its distance from `here`, ordered by that distance,
      none added, dropped or duplicated. */
  function NearbyUsers(raw: seq<User>, here: Location, dist: (Location, Location) -> real): (r: seq<User>)
    ensures |r| == |raw|
    ensures SortedBy(r, DistanceKey)
    ensures multiset(r) == multiset(Annotate(raw, here, dist))
    ensures forall u :: u in r <==> exists i :: 0 <= i < |raw| && u == Annotated(raw[i], here, dist)
    ensures forall i :: 0 <= i < |r| ==> r[i].distance == Some(dist(here, r[i].location))
  {
    var a := Annotate(raw, here, dist);
    var r := SortBy(a, DistanceKey);
    assert |multiset(r)| == |multiset(a)|;
    assert forall u :: u in r <==> u in a by {
      forall u ensures u in r <==> u in a {
        assert u in r <==> u in multiset(r);
        assert u in a <==> u in multiset(a);
      }
    }
    forall i | 0 <= i < |r| ensures r[i].distance == Some(dist(here, r[i].location)) {
      assert r[i] in a;
      var k :| 0 <= k < |a| && a[k] == r[i];
      assert a[k].location == raw[k].location;
    }
    r
  }

  /** Users at the same distance keep the order `getMockNearbyUsers` gave
      them, because the sort is stable. */
  lemma NearbyUsersStable(raw: seq<User>, here: Location, dist: (Location, Location) -> real, d: real)
    ensures WithKey(NearbyUsers(raw, here, dist), DistanceKey, d)
         == WithKey(Annotate(raw, here, dist), DistanceKey, d)
  {
    SortByStable(Annotate(raw, here, dist), DistanceKey, d);
  }

  /** `{ ...prev, isGhostMode: !prev.isGhostMode }`. */
  function WithGhostToggled(u: User): (v: User)
    ensures v.isGhostMode == !u.isGhostMode
    ensures v.(isGhostMode := u.isGhostMode) == u
  {
    u.(isGhostMode := !u.isGhostMode)
  }

  /** Toggling twice restores the user. */
  lemma ToggleTwiceRestores(u: User)
    ensures WithGhostToggled(WithGhostToggled(u)) == u
  {
  }

  /** `{ ...prev, location: loc }`. */
  function WithLocation(u: User, loc: Location): (v: User)
    ensures v.location == loc
    ensures v.(location := u.location) == u
  {
    u.(location := loc)
  }

  /** Whom a row of the chat list is with: a nearby user, or the
      "Mystery User" placeholder. */
  datatype ChatPartner = Known(user: User) | Mystery

  const MysteryName: string := "Mystery User"

  /** The name shown on a row of the chat list. */
  function PartnerName(p: ChatPartner): (n: string)
    ensures p.Known? ==> n == p.user.name
    ensures p.Mystery? ==> n == MysteryName
  {
    match p
    case Known(u) => u.name
    case Mystery => MysteryName
  }

  /** `chat.participants.find(id => id !== 'me')`. */
  function OtherParticipant(chat: Chat): (p: Option<string>)
    ensures p.Some? ==> p.value != MeId
    ensures p.Some? ==> p.value == chat.participants.0 || p.value == chat.participants.1
    ensures p.None? ==> chat.participants.0 == MeId && chat.participants.1 == MeId
    ensures chat.participants.0 != MeId ==> p == Some(chat.participants.0)
  {
    var ids := [chat.participants.0, chat.participants.1];
    var p := Find(ids, id => id != MeId);
    assert ids[0] == chat.participants.0 && ids[1] == chat.participants.1;
    p
  }

  /** `nearbyUsers.find(u => u.id === other) || { name: 'Mystery User', ... }`:
      the first nearby user whose id is the other participant's, if any. */
  function PartnerOf(nearby: seq<User>, chat: Chat): (p: ChatPartner)
    ensures p.Known? <==> OtherParticipant(chat).Some?
                          && exists i :: 0 <= i < |nearby| && nearby[i].id == OtherParticipant(chat).value
    ensures p.Known? ==> exists i :: 0 <= i < |nearby| && nearby[i] == p.user
                          && Some(p.user.id) == OtherParticipant(chat)
                          && forall j :: 0 <= j < i ==> Some(nearby[j].id) != OtherParticipant(chat)
  {
    match OtherParticipant(chat)
    case None => Mystery
    case Some(other) =>
      match Find(nearby, (u: User) => u.id == other)
      case Some(u) => Known(u)
      case None => Mystery
  }

  /** A chat whose other participant is in no nearby user's id is shown
      under the placeholder name. */
  lemma UnknownPartnerIsMystery(nearby: seq<User>, chat: Chat)
    requires OtherParticipant(chat).Some?
    requires forall i :: 0 <= i < |nearby| ==> nearby[i].id != OtherParticipant(chat).value
    ensures PartnerOf(nearby, chat) == Mystery
    ensures PartnerName(PartnerOf(nearby, chat)) == MysteryName
  {
  }

  /** The partners of the chat list, row by row. */
  function ChatPartners(chats: seq<Chat>, nearby: seq<User>): (r: seq<ChatPartner>)
    ensures |r| == |chats|
    ensures forall i :: 0 <= i < |chats| ==> r[i] == PartnerOf(nearby, chats[i])
  {
    seq(|chats|, i requires 0 <= i < |chats| => PartnerOf(nearby, chats[i]))
  }

  /** What fills the screen. */
  datatype Screen = SignIn | Locating | TabScreen(tab: AppTab)

  class AppState {
    var isAuthenticated: bool
    var activeTab: AppTab
    var currentUser: User
    var nearbyUsers: seq<User>
    var selectedChatUser: Option<ChatPartner>
    var isLocationReady: bool

    /** No location before sign-in, no nearby list before a location, and
        the nearby list always in distance order. */
    ghost predicate Valid()
      reads this
    {
      && (!isAuthenticated ==> !isLocationReady)
      && (!isLocationReady ==> nearbyUsers == [])
      && SortedBy(nearbyUsers, DistanceKey)
    }

    /** Until sign-in only the sign-in screen is shown; then a spinner until
        the first location, then the active tab. */
    function CurrentScreen(): (s: Screen)
      reads this
      ensures s == SignIn <==> !isAuthenticated
      ensures s == Locating <==> isAuthenticated && !isLocationReady
      ensures isAuthenticated && isLocationReady ==> s == TabScreen(activeTab)
    {
      if !isAuthenticated then SignIn
      else if !isLocationReady then Locating
      else TabScreen(activeTab)
    }

    /** The navbar's highlighted tab. */
    function NavbarActive(): (t: AppTab)
      reads this
      ensures activeTab != Settings ==> t == activeTab
      ensures activeTab == Settings ==> t == Profile
    {
      NavbarTab(activeTab)
    }

    constructor (me: User)
      ensures Valid()
      ensures !isAuthenticated && activeTab == Nearby && currentUser == me
      ensures nearbyUsers == [] && selectedChatUser == None && !isLocationReady
    {
      isAuthenticated := false;
      activeTab := Nearby;
      currentUser := me;
      nearbyUsers := [];
      selectedChatUser := None;
      isLocationReady := false;
    }

    /** `handleLogin`, the sign-in screen's `onLogin`. */
    method HandleLogin()
      requires Valid()
      modifies this`isAuthenticated
      ensures Valid() && isAuthenticated
      ensures CurrentScreen() != SignIn
    {
      isAuthenticated := true;
    }

    /** A position report of the geolocation watch, which exists only while
        signed in. Only the location of the user changes. */
    method OnPosition(lat: real, lng: real)
      requires Valid() && isAuthenticated
      modifies this`currentUser, this`isLocationReady
      ensures Valid() && isLocationReady
      ensures currentUser == WithLocation(old(currentUser), Location(lat, lng))
    {
      currentUser := WithLocation(currentUser, Location(lat, lng));
      isLocationReady := true;
    }

    /** The watch's error callback: the fallback position instead. */
    method OnPositionError()
      requires Valid() && isAuthenticated
      modifies this`currentUser, this`isLocationReady
      ensures Valid() && isLocationReady
      ensures currentUser == WithLocation(old(currentUser), Fallback)
    {
      currentUser := WithLocation(currentUser, Fallback);
      isLocationReady := true;
    }

    /** The effect on the location: once a location is known, replace the
        nearby list by the fixture users `raw` (what `getMockNearbyUsers`
        returned for this location) annotated and sorted by distance. */
    method RefreshNearby(raw: seq<User>, dist: (Location, Location) -> real)
      requires Valid()
      modifies this`nearbyUsers
      ensures Valid()
      ensures nearbyUsers == if isLocationReady then NearbyUsers(raw, currentUser.location, dist)
                             else old(nearbyUsers)
    {
      if !isLocationReady {
        return;
      }
      var usersWithDistance := NearbyUsers(raw, currentUser.location, dist);
      nearbyUsers := usersWithDistance;
    }

    /** `toggleGhostMode`: only the ghost flag of the user changes. */
    method ToggleGhostMode()
      requires Valid()
      modifies this`currentUser
      ensures Valid()
      ensures currentUser == WithGhostToggled(old(currentUser))
    {
      currentUser := WithGhostToggled(currentUser);
    }

    /** `setActiveTab`, as called by the navbar, the profile button, the
        profile view and the settings back button. */
    method SetActiveTab(tab: AppTab)
      requires Valid()
      modifies this`activeTab
      ensures Valid() && activeTab == tab
    {
      activeTab := tab;
    }

    /** Opening the chat overlay from a card, a map marker or a chat row. */
    method SelectChatUser(partner: ChatPartner)
      requires Valid()
      modifies this`selectedChatUser
      ensures Valid() && selectedChatUser == Some(partner)
    {
      selectedChatUser := Some(partner);
    }

    /** Closing the chat overlay. */
    method CloseChat()
      requires Valid()
      modifies this`selectedChatUser
      ensures Valid() && selectedChatUser == None
    {
      selectedChatUser := None;
    }
  }
}
