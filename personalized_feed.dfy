/** The feed of `components/personalized-feed.tsx`: the feed event record,
    the like and check-in toggles, the plan gate in front of check-in and the
    one-at-a-time audio preview. */
module PersonalizedFeed {
  import opened Lists
  import opened Plans
  import opened Auth
  import opened Gates

  datatype Location = Location(name: string, isExact: bool, distance: string)

  datatype Organizer = Organizer(name: string, avatar: string, verified: bool)

  datatype Stats = Stats(likes: int, comments: int, checkins: int, isLiked: bool, isCheckedIn: bool)

  datatype Audio = Audio(title: string, duration: string, isPlaying: bool)

  datatype FeedEvent = FeedEvent(
    id: string,
    name: string,
    description: string,
    genre: string,
    eventType: string,
    location: Location,
    time: string,
    date: string,
    organizer: Organizer,
    stats: Stats,
    audio: Audio,
    image: string,
    tags: seq<string>)

  function HasId(eventId: string): FeedEvent -> bool
  {
    (e: FeedEvent) => e.id == eventId
  }

  // ------------------------------------------------------------------ like

  /** The flag flips and the like count moves by one, without a floor. */
  function FlipLike(e: FeedEvent): FeedEvent
  {
    e.(stats := e.stats.(isLiked := !e.stats.isLiked,
                         likes := if e.stats.isLiked then e.stats.likes - 1 else e.stats.likes + 1))
  }

  /** The state update of `toggleLike(eventId)`. */
  function ToggleLikeIn(events: seq<FeedEvent>, eventId: string): seq<FeedEvent>
  {
    MapIf(events, HasId(eventId), FlipLike)
  }

  /** Only events with that id change, and only their like flag and like count;
      the check-in fields are never touched. */
  lemma ToggleLikeEffect(events: seq<FeedEvent>, eventId: string)
    ensures var r := ToggleLikeIn(events, eventId);
      && |r| == |events|
      && (forall i :: 0 <= i < |events| && events[i].id != eventId ==> r[i] == events[i])
      && (forall i :: 0 <= i < |events| && events[i].id == eventId ==>
            && r[i].stats.isLiked == !events[i].stats.isLiked
            && r[i].stats.likes == events[i].stats.likes + (if events[i].stats.isLiked then -1 else 1)
            && r[i].stats.(isLiked := events[i].stats.isLiked, likes := events[i].stats.likes) == events[i].stats
            && r[i].(stats := events[i].stats) == events[i])
      && (forall i :: 0 <= i < |events| ==>
            r[i].stats.checkins == events[i].stats.checkins && r[i].stats.isCheckedIn == events[i].stats.isCheckedIn)
  {
  }

  lemma ToggleLikeUnknownId(events: seq<FeedEvent>, eventId: string)
    requires forall i :: 0 <= i < |events| ==> events[i].id != eventId
    ensures ToggleLikeIn(events, eventId) == events
  {
    MapIfNoHit(events, HasId(eventId), FlipLike);
  }

  lemma ToggleLikeTwice(events: seq<FeedEvent>, eventId: string)
    ensures ToggleLikeIn(ToggleLikeIn(events, eventId), eventId) == events
  {
    MapIfInvolution(events, HasId(eventId), FlipLike);
  }

  // -------------------------------------------------------------- check-in

  /** The flag flips and the check-in count moves by one, without a floor. */
  function FlipCheckin(e: FeedEvent): FeedEvent
  {
    e.(stats := e.stats.(isCheckedIn := !e.stats.isCheckedIn,
                         checkins := if e.stats.isCheckedIn then e.stats.checkins - 1 else e.stats.checkins + 1))
  }

  /** The state update of a permitted `toggleCheckin(eventId)`. */
  function ToggleCheckinIn(events: seq<FeedEvent>, eventId: string): seq<FeedEvent>
  {
    MapIf(events, HasId(eventId), FlipCheckin)
  }

  /** Only events with that id change, and only their check-in flag and count;
      the like fields are never touched. */
  lemma ToggleCheckinEffect(events: seq<FeedEvent>, eventId: string)
    ensures var r := ToggleCheckinIn(events, eventId);
      && |r| == |events|
      && (forall i :: 0 <= i < |events| && events[i].id != eventId ==> r[i] == events[i])
      && (forall i :: 0 <= i < |events| && events[i].id == eventId ==>
            && r[i].stats.isCheckedIn == !events[i].stats.isCheckedIn
            && r[i].stats.checkins == events[i].stats.checkins + (if events[i].stats.isCheckedIn then -1 else 1)
            && r[i].stats.(isCheckedIn := events[i].stats.isCheckedIn, checkins := events[i].stats.checkins) ==
               events[i].stats
            && r[i].(stats := events[i].stats) == events[i])
      && (forall i :: 0 <= i < |events| ==>
            r[i].stats.likes == events[i].stats.likes && r[i].stats.isLiked == events[i].stats.isLiked)
  {
  }

  lemma ToggleCheckinUnknownId(events: seq<FeedEvent>, eventId: string)
    requires forall i :: 0 <= i < |events| ==> events[i].id != eventId
    ensures ToggleCheckinIn(events, eventId) == events
  {
    MapIfNoHit(events, HasId(eventId), FlipCheckin);
  }

  lemma ToggleCheckinTwice(events: seq<FeedEvent>, eventId: string)
    ensures ToggleCheckinIn(ToggleCheckinIn(events, eventId), eventId) == events
  {
    MapIfInvolution(events, HasId(eventId), FlipCheckin);
  }

  /** A like and a check-in touch disjoint fields, so their order does not matter. */
  lemma LikeAndCheckinCommute(events: seq<FeedEvent>, likedId: string, checkedId: string)
    ensures ToggleLikeIn(ToggleCheckinIn(events, checkedId), likedId) ==
            ToggleCheckinIn(ToggleLikeIn(events, likedId), checkedId)
  {
    var a := ToggleLikeIn(ToggleCheckinIn(events, checkedId), likedId);
    var b := ToggleCheckinIn(ToggleLikeIn(events, likedId), checkedId);
    assert |a| == |b|;
    forall i | 0 <= i < |a| ensures a[i] == b[i] {
    }
  }

  // ----------------------------------------------------------------- audio

  /** `toggleAudio(eventId)`: the same id stops the preview, any other id plays it. */
  function NextPlaying(playingAudio: Option<string>, eventId: string): (r: Option<string>)
    ensures r.Some? ==> r.value == eventId
    ensures r == None <==> playingAudio == Some(eventId)
  {
    if playingAudio == Some(eventId) then None else Some(eventId)
  }

  /** Starting from silence, pressing the same preview twice is silence again. */
  lemma AudioTwiceFromSilence(eventId: string)
    ensures NextPlaying(NextPlaying(None, eventId), eventId) == None
  {
  }

  // ----------------------------------------------------------- component

  const CheckinUpgradeReason: string := "fazer check-in em eventos por convite"

  class Feed {
    var events: seq<FeedEvent>
    var playingAudio: Option<string>
    var showUpgradeModal: bool
    var upgradeReason: string
    var showInviteSystem: bool

    constructor(initial: seq<FeedEvent>)
      ensures events == initial && playingAudio == None
      ensures !showUpgradeModal && upgradeReason == "" && !showInviteSystem
    {
      events := initial;
      playingAudio := None;
      showUpgradeModal := false;
      upgradeReason := "";
      showInviteSystem := false;
    }

    /** Every event is listed, in store order: the feed applies no filter. */
    function Listed(): (r: seq<FeedEvent>)
      reads this
      ensures |r| == |events| && forall i :: 0 <= i < |r| ==> r[i] == events[i]
    {
      events
    }

    method ToggleLike(eventId: string)
      modifies this`events
      ensures events == ToggleLikeIn(old(events), eventId)
    {
      events := ToggleLikeIn(events, eventId);
    }

    /** `toggleCheckin`: no user or the free plan opens the invite system; a
        plan without `canAcceptInvites` opens the upgrade prompt; only then is
        the check-in toggled. The events change only on that last path. */
    method ToggleCheckin(eventId: string, user: Option<User>) returns (gate: InviteGate)
      modifies this`events, this`showInviteSystem, this`showUpgradeModal, this`upgradeReason
      ensures gate == InviteGateFor(user)
      ensures gate == OpenInviteSystem ==>
                events == old(events) && showInviteSystem &&
                showUpgradeModal == old(showUpgradeModal) && upgradeReason == old(upgradeReason)
      ensures gate == AskUpgrade ==>
                events == old(events) && showInviteSystem == old(showInviteSystem) &&
                showUpgradeModal && upgradeReason == CheckinUpgradeReason
      ensures gate == Proceed ==>
                events == ToggleCheckinIn(old(events), eventId) && showInviteSystem == old(showInviteSystem) &&
                showUpgradeModal == old(showUpgradeModal) && upgradeReason == old(upgradeReason)
    {
      if user.None? || user.value.plan == "free" {
        showInviteSystem := true;
        return OpenInviteSystem;
      }
      if !CanUserPerformAction(user.value.plan, CanAcceptInvites) {
        upgradeReason := CheckinUpgradeReason;
        showUpgradeModal := true;
        return AskUpgrade;
      }
      events := ToggleCheckinIn(events, eventId);
      return Proceed;
    }

    method ToggleAudio(eventId: string)
      modifies this`playingAudio
      ensures playingAudio == NextPlaying(old(playingAudio), eventId)
    {
      if playingAudio == Some(eventId) {
        playingAudio := None;
      } else {
        playingAudio := Some(eventId);
      }
    }
  }
}
