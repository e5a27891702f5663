/** The rewards screen of `components/gamification-system.tsx`: challenges
    and their claim, the active-challenge count, the leaderboard lookups with
    their defaults and the reward button rule. */
module Gamification {
  import opened Lists
  import opened Auth

  datatype Challenge = Challenge(
    id: string,
    title: string,
    description: string,
    points: int,
    progress: int,
    maxProgress: int,
    challengeType: string,
    category: string,
    completed: bool,
    expiresAt: string)

  datatype LeaderboardUser = LeaderboardUser(
    id: string,
    name: string,
    avatar: string,
    level: int,
    points: int,
    rank: int,
    weeklyPoints: int,
    badges: seq<string>)

  datatype Reward = Reward(
    id: string,
    name: string,
    description: string,
    cost: int,
    rewardType: string,
    rarity: string,
    image: string,
    available: bool)

  const MockChallenges: seq<Challenge> := [
    Challenge("1", "Party Explorer", "Faça check-in em 3 eventos diferentes", 150, 2, 3, "daily", "events",
              false, "2024-01-16T23:59:59"),
    Challenge("2", "Social Butterfly", "Curta 10 posts no feed", 50, 7, 10, "daily", "social",
              false, "2024-01-16T23:59:59"),
    Challenge("3", "Secret Hunter", "Descubra 2 eventos secretos", 300, 1, 2, "weekly", "exploration",
              false, "2024-01-21T23:59:59"),
    Challenge("4", "Marketplace Master", "Compre ou troque 1 item no marketplace", 200, 0, 1, "weekly",
              "marketplace", false, "2024-01-21T23:59:59")]

  const MockLeaderboard: seq<LeaderboardUser> := [
    LeaderboardUser("1", "CyberRaver", "/leaderboard-1.png", 8, 4250, 1, 850, ["🏆", "🎵", "🔥"]),
    LeaderboardUser("2", "NeonDancer", "/leaderboard-2.png", 7, 3890, 2, 720, ["⭐", "🎭", "💫"]),
    LeaderboardUser("3", "BassHunter", "/leaderboard-3.png", 6, 3456, 3, 650, ["🎧", "🌟", "🚀"]),
    LeaderboardUser("4", "Alex", "/user-avatar.png", 3, 1250, 47, 180, ["🎉", "🎶"])]

  const MockRewards: seq<Reward> := [
    Reward("1", "Avatar Holográfico", "Avatar exclusivo com efeitos holográficos", 500, "avatar", "epic",
           "/reward-avatar-holo.png", true),
    Reward("2", "Badge Lenda SUBLINX", "Badge exclusiva para verdadeiros veteranos da plataforma", 1000, "badge",
           "legendary", "/reward-badge-legend.png", false),
    Reward("3", "Desconto 20% Marketplace", "20% de desconto em qualquer item do marketplace", 200, "discount",
           "common", "/reward-discount.png", true),
    Reward("4", "Acesso VIP Eventos", "Acesso antecipado a eventos exclusivos por 1 mês", 800, "exclusive", "rare",
           "/reward-vip.png", true)]

  // ----------------------------------------------------------------- claim

  predicate Eligible(c: Challenge)
  {
    c.progress >= c.maxProgress
  }

  /** The test of the `map` in `claimChallenge`: the id matches and the progress is full. */
  function ClaimHit(challengeId: string): Challenge -> bool
  {
    (c: Challenge) => c.id == challengeId && Eligible(c)
  }

  function Complete(c: Challenge): Challenge
  {
    c.(completed := true)
  }

  /** The state update of `claimChallenge(challengeId)`. */
  function ClaimIn(challenges: seq<Challenge>, challengeId: string): seq<Challenge>
  {
    MapIf(challenges, ClaimHit(challengeId), Complete)
  }

  /** Only an eligible challenge with that id changes, and only its `completed`,
      which becomes true; no challenge is ever un-completed. */
  lemma ClaimEffect(challenges: seq<Challenge>, challengeId: string)
    ensures var r := ClaimIn(challenges, challengeId);
      && |r| == |challenges|
      && (forall i :: 0 <= i < |challenges| && (challenges[i].id != challengeId || !Eligible(challenges[i])) ==>
            r[i] == challenges[i])
      && (forall i :: 0 <= i < |challenges| && challenges[i].id == challengeId && Eligible(challenges[i]) ==>
            r[i].completed && r[i].(completed := challenges[i].completed) == challenges[i])
      && (forall i :: 0 <= i < |challenges| && challenges[i].completed ==> r[i].completed)
  {
  }

  /** An unknown id, or one whose challenges are all short of their goal, changes nothing. */
  lemma ClaimNoEligible(challenges: seq<Challenge>, challengeId: string)
    requires forall i :: 0 <= i < |challenges| ==> challenges[i].id != challengeId || !Eligible(challenges[i])
    ensures ClaimIn(challenges, challengeId) == challenges
  {
    MapIfNoHit(challenges, ClaimHit(challengeId), Complete);
  }

  /** Claiming twice is claiming once. */
  lemma ClaimIdempotent(challenges: seq<Challenge>, challengeId: string)
    ensures ClaimIn(ClaimIn(challenges, challengeId), challengeId) == ClaimIn(challenges, challengeId)
  {
    MapIfIdempotent(challenges, ClaimHit(challengeId), Complete);
  }

  /** No mock challenge has reached its goal, so every claim on the mock list changes nothing. */
  lemma MockClaimsAreNoOps(challengeId: string)
    ensures ClaimIn(MockChallenges, challengeId) == MockChallenges
  {
    ClaimNoEligible(MockChallenges, challengeId);
  }

  // ---------------------------------------------------------- active count

  function IsActive(): Challenge -> bool
  {
    (c: Challenge) => !c.completed
  }

  /** "Desafios Ativos": `challenges.filter((c) => !c.completed).length`. */
  function ActiveCount(challenges: seq<Challenge>): (n: nat)
    ensures n <= |challenges|
  {
    |Filter(challenges, IsActive())|
  }

  /** The challenges a claim of that id would complete. */
  function ClaimableTest(challengeId: string): Challenge -> bool
  {
    (c: Challenge) => c.id == challengeId && Eligible(c) && !c.completed
  }

  /** A claim lowers the active count by exactly the number of challenges it completes. */
  lemma {:induction false} ClaimActiveCount(challenges: seq<Challenge>, challengeId: string)
    ensures ActiveCount(ClaimIn(challenges, challengeId)) ==
            ActiveCount(challenges) - |Filter(challenges, ClaimableTest(challengeId))|
  {
    if challenges != [] {
      var r := ClaimIn(challenges, challengeId);
      assert r[1..] == ClaimIn(challenges[1..], challengeId);
      ClaimActiveCount(challenges[1..], challengeId);
      assert r == [r[0]] + r[1..];
    }
  }

  predicate UniqueIds(challenges: seq<Challenge>)
  {
    forall i, j :: 0 <= i < j < |challenges| ==> challenges[i].id != challenges[j].id
  }

  /** With distinct ids at most one challenge carries the claimed id; if it is
      claimable, exactly one is. */
  lemma {:induction false} ClaimableCount(challenges: seq<Challenge>, challengeId: string, k: int)
    requires UniqueIds(challenges)
    requires 0 <= k < |challenges| && ClaimableTest(challengeId)(challenges[k])
    ensures |Filter(challenges, ClaimableTest(challengeId))| == 1
  {
    var p := ClaimableTest(challengeId);
    var rest := challenges[1..];
    if k == 0 {
      forall i | 0 <= i < |rest| ensures !p(rest[i]) {
        assert rest[i] == challenges[i + 1];
      }
      FilterNone(rest, p);
    } else {
      assert !p(challenges[0]) by {
        assert challenges[0].id != challenges[k].id;
      }
      assert UniqueIds(rest) by {
        forall i, j | 0 <= i < j < |rest| ensures rest[i].id != rest[j].id {
          assert rest[i] == challenges[i + 1] && rest[j] == challenges[j + 1];
        }
      }
      assert rest[k - 1] == challenges[k];
      ClaimableCount(rest, challengeId, k - 1);
    }
  }

  /** With distinct ids, claiming a full, uncompleted challenge lowers the active count by one. */
  lemma ClaimLowersActiveByOne(challenges: seq<Challenge>, challengeId: string, k: int)
    requires UniqueIds(challenges)
    requires 0 <= k < |challenges| && challenges[k].id == challengeId
    requires Eligible(challenges[k]) && !challenges[k].completed
    ensures ActiveCount(ClaimIn(challenges, challengeId)) == ActiveCount(challenges) - 1
  {
    ClaimActiveCount(challenges, challengeId);
    ClaimableCount(challenges, challengeId, k);
  }

  /** The claim button: full progress and not yet completed. */
  predicate ClaimButtonShown(c: Challenge)
  {
    c.progress >= c.maxProgress && !c.completed
  }

  /** Pressing a shown claim button completes that challenge, after which its button is gone. */
  lemma ClaimHidesButton(challenges: seq<Challenge>, k: int)
    requires 0 <= k < |challenges| && ClaimButtonShown(challenges[k])
    ensures var r := ClaimIn(challenges, challenges[k].id);
            r[k].completed && !ClaimButtonShown(r[k])
  {
  }

  // ----------------------------------------------------------- leaderboard

  /** `MOCK_LEADERBOARD.find((u) => u.name === user?.name)`: without a user the
      name is undefined and no entry matches. */
  function FindEntry(board: seq<LeaderboardUser>, userName: Option<string>): (r: Option<LeaderboardUser>)
    ensures userName.None? ==> r.None?
    ensures userName.Some? ==> (r.None? <==> forall i :: 0 <= i < |board| ==> board[i].name != userName.value)
    ensures r.Some? ==> userName.Some? && r.value.name == userName.value
    ensures r.Some? ==> userName.Some? &&
                        exists k :: 0 <= k < |board| && board[k] == r.value &&
                          forall i :: 0 <= i < k ==> board[i].name != userName.value
  {
    match userName
    case None => None
    case Some(name) => Find(board, (u: LeaderboardUser) => u.name == name)
  }

  function UserName(user: Option<User>): Option<string>
  {
    match user
    case None => None
    case Some(u) => Some(u.name)
  }

  /** `?.rank || 47`: no entry, or a rank of 0, shows 47. */
  function UserRank(board: seq<LeaderboardUser>, user: Option<User>): (rank: int)
    ensures FindEntry(board, UserName(user)).None? ==> rank == 47
    ensures FindEntry(board, UserName(user)).Some? && FindEntry(board, UserName(user)).value.rank != 0 ==>
              rank == FindEntry(board, UserName(user)).value.rank
    ensures FindEntry(board, UserName(user)).Some? && FindEntry(board, UserName(user)).value.rank == 0 ==>
              rank == 47
    ensures rank != 47 ==> exists i :: 0 <= i < |board| && board[i].rank == rank
  {
    match FindEntry(board, UserName(user))
    case None => 47
    case Some(entry) => if entry.rank == 0 then 47 else entry.rank
  }

  /** `?.weeklyPoints || 180`: no entry, or 0 weekly points, shows 180. */
  function UserWeeklyPoints(board: seq<LeaderboardUser>, user: Option<User>): (points: int)
    ensures FindEntry(board, UserName(user)).None? ==> points == 180
    ensures FindEntry(board, UserName(user)).Some? && FindEntry(board, UserName(user)).value.weeklyPoints != 0 ==>
              points == FindEntry(board, UserName(user)).value.weeklyPoints
    ensures FindEntry(board, UserName(user)).Some? && FindEntry(board, UserName(user)).value.weeklyPoints == 0 ==>
              points == 180
  {
    match FindEntry(board, UserName(user))
    case None => 180
    case Some(entry) => if entry.weeklyPoints == 0 then 180 else entry.weeklyPoints
  }

  /** For any board: the rank and weekly points shown are those of the first
      entry carrying the user's name, with 0 replaced by the defaults. */
  lemma LookupIsFirstMatch(board: seq<LeaderboardUser>, u: User, k: int)
    requires 0 <= k < |board| && board[k].name == u.name
    requires forall i :: 0 <= i < k ==> board[i].name != u.name
    ensures UserRank(board, Some(u)) == if board[k].rank == 0 then 47 else board[k].rank
    ensures UserWeeklyPoints(board, Some(u)) == if board[k].weeklyPoints == 0 then 180 else board[k].weeklyPoints
  {
    var e := FindEntry(board, Some(u.name));
    assert e.Some?;
    var j :| 0 <= j < |board| && board[j] == e.value && e.value.name == u.name &&
             forall i :: 0 <= i < j ==> board[i].name != u.name;
    assert !(j < k) && !(k < j);
  }

  /** On the mock board: CyberRaver is first with 850, and both a user named
      "Alex" and no user at all show rank 47 with 180 weekly points. */
  lemma MockLeaderboardLookups(u: User)
    ensures UserRank(MockLeaderboard, None) == 47 && UserWeeklyPoints(MockLeaderboard, None) == 180
    ensures u.name == "CyberRaver" ==>
              UserRank(MockLeaderboard, Some(u)) == 1 && UserWeeklyPoints(MockLeaderboard, Some(u)) == 850
    ensures u.name == "Alex" ==>
              UserRank(MockLeaderboard, Some(u)) == 47 && UserWeeklyPoints(MockLeaderboard, Some(u)) == 180
  {
    assert MockLeaderboard[0].name == "CyberRaver";
    if u.name == "Alex" {
      var e := FindEntry(MockLeaderboard, Some("Alex"));
      assert MockLeaderboard[0].name != "Alex" && MockLeaderboard[1].name != "Alex";
      assert MockLeaderboard[2].name != "Alex" && MockLeaderboard[3].name == "Alex";
      assert e.Some?;
      assert e.value == MockLeaderboard[3];
    }
  }

  // ---------------------------------------------------------------- reward

  /** `user?.points || 1250`: no user, or 0 points, counts as 1250. */
  function EffectivePoints(user: Option<User>): (points: int)
    ensures user.Some? && user.value.points != 0 ==> points == user.value.points
    ensures user.None? || user.value.points == 0 ==> points == 1250
  {
    if user.None? || user.value.points == 0 then 1250 else user.value.points
  }

  /** The button is enabled when the reward is available and affordable. */
  predicate RewardEnabled(reward: Reward, user: Option<User>)
  {
    !(!reward.available || EffectivePoints(user) < reward.cost)
  }

  const LabelUnavailable: string := "Indisponível"
  const LabelInsufficient: string := "Pontos Insuficientes"
  const LabelRedeem: string := "Resgatar"

  /** The button face: availability is checked first, then the points. */
  function RewardLabel(reward: Reward, user: Option<User>): (face: string)
    ensures face == LabelUnavailable <==> !reward.available
    ensures face == LabelInsufficient <==> reward.available && EffectivePoints(user) < reward.cost
    ensures face == LabelRedeem <==> RewardEnabled(reward, user)
  {
    if !reward.available then LabelUnavailable
    else if EffectivePoints(user) < reward.cost then LabelInsufficient
    else LabelRedeem
  }

  /** From a non-zero balance, more points never disable a reward. */
  lemma RewardMonotone(reward: Reward, user: User, points: int)
    requires user.points != 0 && points >= user.points
    ensures RewardEnabled(reward, Some(user)) ==> RewardEnabled(reward, Some(user.(points := points)))
  {
  }

  /** A balance of 0 counts as 1250, so earning one point can disable a reward:
      the 500-point first reward is redeemable at 0 points and not at 1. */
  lemma ZeroBalanceDrop(user: User)
    requires user.points == 0
    ensures RewardEnabled(MockRewards[0], Some(user))
    ensures !RewardEnabled(MockRewards[0], Some(user.(points := 1)))
  {
  }

  /** With the default 1250 points, the three available mock rewards are
      redeemable and the unavailable one is not. */
  lemma DefaultPointsRewards()
    ensures RewardEnabled(MockRewards[0], None) && RewardEnabled(MockRewards[2], None)
    ensures RewardEnabled(MockRewards[3], None)
    ensures RewardLabel(MockRewards[1], None) == LabelUnavailable
  {
  }

  // ----------------------------------------------------------- component

  class GamificationView {
    var challenges: seq<Challenge>
    var selectedTab: string

    constructor()
      ensures challenges == MockChallenges && selectedTab == "challenges"
    {
      challenges := MockChallenges;
      selectedTab := "challenges";
    }

    method ClaimChallenge(challengeId: string)
      modifies this`challenges
      ensures challenges == ClaimIn(old(challenges), challengeId)
    {
      challenges := ClaimIn(challenges, challengeId);
    }

    method SelectTab(tab: string)
      modifies this`selectedTab
      ensures selectedTab == tab
    {
      selectedTab := tab;
    }
  }
}
