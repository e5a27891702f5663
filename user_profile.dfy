/** The profile screen of `components/user-profile.tsx`: the level table
    lookup, the avatar skins, the level and points shown with their defaults,
    and the avatar-selector and edit toggles. */
module UserProfile {
  import opened Lists
  import opened Auth

  /** A row of the level table; the icon component is not modelled. */
  datatype LevelInfo = LevelInfo(name: string, color: string)

  const Levels: seq<LevelInfo> := [
    LevelInfo("Novato", "text-gray-400"),
    LevelInfo("Explorador", "text-neon-blue"),
    LevelInfo("Veterano", "text-neon-purple"),
    LevelInfo("Lenda", "text-neon-green")]

  datatype AvatarSkin = AvatarSkin(id: string, name: string, url: string)

  const AvatarSkins: seq<AvatarSkin> := [
    AvatarSkin("cyber1", "Cyber Punk", "/avatar-cyber1.png"),
    AvatarSkin("neon2", "Neon Warrior", "/avatar-neon2.png"),
    AvatarSkin("techno3", "Techno Ghost", "/avatar-techno3.png"),
    AvatarSkin("acid4", "Acid Dreams", "/avatar-acid4.png")]

  const PlaceholderImage: string := "/placeholder.svg"

  // ----------------------------------------------------------------- level

  /** `levels[Math.min(level - 1, levels.length - 1)] || levels[0]`: a negative
      index reads `undefined` and falls back to the first row. */
  function GetLevelInfo(level: int): (info: LevelInfo)
    ensures info in Levels
    ensures 1 <= level <= |Levels| ==> info == Levels[level - 1]
    ensures level >= |Levels| ==> info == Levels[|Levels| - 1]
    ensures level <= 0 ==> info == Levels[0]
  {
    var index := if level - 1 < |Levels| - 1 then level - 1 else |Levels| - 1;
    if 0 <= index then Levels[index] else Levels[0]
  }

  /** The names per level: 1 Novato, 2 Explorador, 3 Veterano, 4 and above Lenda, 0 and below Novato. */
  lemma LevelNames(level: int)
    ensures GetLevelInfo(1).name == "Novato" && GetLevelInfo(2).name == "Explorador"
    ensures GetLevelInfo(3).name == "Veterano"
    ensures level >= 4 ==> GetLevelInfo(level).name == "Lenda"
    ensures level <= 0 ==> GetLevelInfo(level).name == "Novato"
  {
  }

  /** A higher level never shows an earlier row of the table; levels below 1 show the first row. */
  lemma LevelInfoMonotone(a: int, b: int)
    requires a <= b
    ensures exists i, j :: 0 <= i <= j < |Levels| && GetLevelInfo(a) == Levels[i] && GetLevelInfo(b) == Levels[j]
  {
    var i := if a <= 0 then 0 else if a - 1 < 3 then a - 1 else 3;
    var j := if b <= 0 then 0 else if b - 1 < 3 then b - 1 else 3;
    assert GetLevelInfo(a) == Levels[i] && GetLevelInfo(b) == Levels[j];
  }

  // ---------------------------------------------------------------- avatar

  /** `AVATAR_SKINS.find((s) => s.id === selectedAvatar)?.url || "/placeholder.svg"`. */
  function AvatarUrl(selectedAvatar: string): (url: string)
    ensures (forall i :: 0 <= i < |AvatarSkins| ==> AvatarSkins[i].id != selectedAvatar) ==> url == PlaceholderImage
    ensures forall i :: 0 <= i < |AvatarSkins| && AvatarSkins[i].id == selectedAvatar ==> url == AvatarSkins[i].url
  {
    match Find(AvatarSkins, (s: AvatarSkin) => s.id == selectedAvatar)
    case None => PlaceholderImage
    case Some(skin) => if skin.url == "" then PlaceholderImage else skin.url
  }

  /** The four skins show their own images ("cyber1", the initial choice,
      shows "/avatar-cyber1.png"); an id outside the table shows the placeholder. */
  lemma AvatarUrls(selected: string)
    ensures selected == "cyber1" ==> AvatarUrl(selected) == "/avatar-cyber1.png"
    ensures selected == "neon2" ==> AvatarUrl(selected) == "/avatar-neon2.png"
    ensures selected == "techno3" ==> AvatarUrl(selected) == "/avatar-techno3.png"
    ensures selected == "acid4" ==> AvatarUrl(selected) == "/avatar-acid4.png"
    ensures selected !in {"cyber1", "neon2", "techno3", "acid4"} ==> AvatarUrl(selected) == PlaceholderImage
  {
    if selected == "cyber1" {
      SkinUrl(0);
    } else if selected == "neon2" {
      SkinUrl(1);
    } else if selected == "techno3" {
      SkinUrl(2);
    } else if selected == "acid4" {
      SkinUrl(3);
    }
  }

  lemma SkinUrl(i: int)
    requires 0 <= i < |AvatarSkins|
    ensures AvatarUrl(AvatarSkins[i].id) == AvatarSkins[i].url
  {
  }

  // ----------------------------------------------------------------- stats

  /** `user?.level || 3`: no user, or level 0, shows 3. */
  function ShownLevel(user: Option<User>): (level: int)
    ensures user.Some? && user.value.level != 0 ==> level == user.value.level
    ensures user.None? || user.value.level == 0 ==> level == 3
    ensures level != 0
  {
    if user.None? || user.value.level == 0 then 3 else user.value.level
  }

  /** `user?.points || 1250`: no user, or 0 points, shows 1250. */
  function ShownPoints(user: Option<User>): (points: int)
    ensures user.Some? && user.value.points != 0 ==> points == user.value.points
    ensures user.None? || user.value.points == 0 ==> points == 1250
    ensures points != 0
  {
    if user.None? || user.value.points == 0 then 1250 else user.value.points
  }

  /** Without a user the badge reads Veterano; for the two demo accounts it
      reads Lenda (level 10) and Veterano (level 3). */
  lemma ShownBadges(u: User)
    ensures GetLevelInfo(ShownLevel(None)).name == "Veterano"
    ensures u.level == 10 ==> GetLevelInfo(ShownLevel(Some(u))).name == "Lenda"
    ensures u.level == 3 ==> GetLevelInfo(ShownLevel(Some(u))).name == "Veterano"
  {
  }

  // ----------------------------------------------------------- component

  class Profile {
    var selectedAvatar: string
    var showAvatarSelector: bool
    var isEditing: bool

    constructor()
      ensures selectedAvatar == "cyber1" && !showAvatarSelector && !isEditing
    {
      selectedAvatar := "cyber1";
      showAvatarSelector := false;
      isEditing := false;
    }

    /** The large avatar: the selected skin's image, or the placeholder for an id outside the table. */
    function ShownAvatar(): (url: string)
      reads this
      ensures (forall i :: 0 <= i < |AvatarSkins| ==> AvatarSkins[i].id != selectedAvatar) ==> url == PlaceholderImage
      ensures forall i :: 0 <= i < |AvatarSkins| && AvatarSkins[i].id == selectedAvatar ==> url == AvatarSkins[i].url
    {
      AvatarUrl(selectedAvatar)
    }

    /** Clicking a skin selects it and closes the selector. */
    method PickSkin(skin: AvatarSkin)
      modifies this`selectedAvatar, this`showAvatarSelector
      ensures selectedAvatar == skin.id && !showAvatarSelector
      ensures skin in AvatarSkins ==> ShownAvatar() == skin.url
    {
      selectedAvatar := skin.id;
      showAvatarSelector := false;
    }

    /** The camera button. */
    method ToggleAvatarSelector()
      modifies this`showAvatarSelector
      ensures showAvatarSelector == !old(showAvatarSelector)
    {
      showAvatarSelector := !showAvatarSelector;
    }

    /** The selector's close button. */
    method CloseAvatarSelector()
      modifies this`showAvatarSelector
      ensures !showAvatarSelector
    {
      showAvatarSelector := false;
    }

    /** The edit / save button. */
    method ToggleEditing()
      modifies this`isEditing
      ensures isEditing == !old(isEditing)
    {
      isEditing := !isEditing;
    }
  }
}
