// The fighter setup form (components/UploadSection.tsx): the portrait resize, the power-up
// toggles, the ability shop table and the gates in front of the two start buttons.
module UploadForm {
  import opened Types
  import opened Portraits
  import opened Forms
  import Shell

  // ---- the portrait resize ----

  const MaxSize: real := 800.0

  /** The dimension arithmetic of the image loader: the longer side is brought down to 800
      and the other side scaled by the same factor; a square counts as portrait. */
  method ResizeDims(imgWidth: real, imgHeight: real) returns (width: real, height: real)
    requires imgWidth > 0.0 && imgHeight > 0.0
    ensures imgWidth > imgHeight && imgWidth > MaxSize ==>
      width == MaxSize && height == imgHeight * (MaxSize / imgWidth)
    ensures imgWidth <= imgHeight && imgHeight > MaxSize ==>
      height == MaxSize && width == imgWidth * (MaxSize / imgHeight)
    ensures imgWidth <= MaxSize && imgHeight <= MaxSize ==> width == imgWidth && height == imgHeight
    ensures 0.0 < width <= MaxSize && 0.0 < height <= MaxSize
    ensures width * imgHeight == height * imgWidth
  {
    width := imgWidth;
    height := imgHeight;
    if width > height {
      if width > MaxSize {
        height := height * (MaxSize / width);
        width := MaxSize;
        assert height == imgHeight * MaxSize / imgWidth;
      }
    } else {
      if height > MaxSize {
        width := width * (MaxSize / height);
        height := MaxSize;
        assert width == imgWidth * MaxSize / imgHeight;
      }
    }
  }

  // ---- the power-up toggles ----

  /** togglePowerUp on the selected set. */
  function Toggle(s: set<PowerUpType>, t: PowerUpType): (r: set<PowerUpType>)
    ensures t in r <==> t !in s
    ensures forall u :: u != t ==> (u in r <==> u in s)
  {
    if t in s then s - {t} else s + {t}
  }

  lemma ToggleTwice(s: set<PowerUpType>, t: PowerUpType)
    ensures Toggle(Toggle(s, t), t) == s
  {
  }

  function TogglePowerUp(f: Form, t: PowerUpType): (g: Form)
    ensures g.selectedPowerUps == Toggle(f.selectedPowerUps, t)
    ensures g.(selectedPowerUps := f.selectedPowerUps) == f
  {
    f.(selectedPowerUps := Toggle(f.selectedPowerUps, t))
  }

  // ---- the ability shop ----

  const PowerOptions: seq<PowerOption> := [
    PowerOption(GMasti, "Gmasti (Fireball)", 0),
    PowerOption(SixFtBaddie, "6Ft Baddie (Ice)", 100),
    PowerOption(RohanMob, "Rohan Mob (Shield)", 200),
    PowerOption(Lambardaar, "Lambardaar (Giant)", 300),
    PowerOption(Singh, "Singh (Tuff)", 400),
    PowerOption(Abhay, "Abhay (Magnet)", 500),
    PowerOption(Manan, "Manan (Curse)", 600),
    PowerOption(Pal, "Pal (Lovely)", 700),
    PowerOption(GtMode, "GT Mode (Ultimate)", 800),
    PowerOption(Soni, "Soni (God Mode)", 1000)]

  /** `POWER_OPTIONS.find(p => p.id === id)`: the first entry with that id. */
  function Find(options: seq<PowerOption>, id: SpecialId): (r: Option<PowerOption>)
    ensures r.Some? <==> exists i :: 0 <= i < |options| && options[i].id == id
    ensures r.Some? ==> r.value in options && r.value.id == id
  {
    if |options| == 0 then None
    else if options[0].id == id then Some(options[0])
    else
      var r := Find(options[1..], id);
      assert forall i :: 1 <= i < |options| ==> options[i] == options[1..][i - 1];
      r
  }

  /** Every ability is on sale exactly once, GMASTI is free and prices never go down the list. */
  lemma ShopTable()
    ensures forall id :: Find(PowerOptions, id).Some?
    ensures forall i, j :: 0 <= i < j < |PowerOptions| ==> PowerOptions[i].id != PowerOptions[j].id
    ensures forall i, j :: 0 <= i < j < |PowerOptions| ==> 0 <= PowerOptions[i].price < PowerOptions[j].price
    ensures PowerOptions[0] == PowerOption(GMasti, "Gmasti (Fireball)", 0)
  {
    forall id ensures Find(PowerOptions, id).Some? {
      var i := match id
        case GMasti => 0 case SixFtBaddie => 1 case RohanMob => 2 case Lambardaar => 3
        case Singh => 4 case Abhay => 5 case Manan => 6 case Pal => 7 case GtMode => 8
        case Soni => 9;
      assert PowerOptions[i].id == id;
    }
  }

  /** Clicking an option card selects it only when it is unlocked. */
  function SelectOption(f: Form, unlocked: seq<SpecialId>, opt: PowerOption): (g: Form)
    ensures opt.id !in unlocked ==> g == f
    ensures opt.id in unlocked ==> g.p1SpecialId == opt.id && g.p1SpecialName == opt.name
    ensures g.(p1SpecialId := f.p1SpecialId, p1SpecialName := f.p1SpecialName) == f
  {
    if opt.id !in unlocked then f else f.(p1SpecialId := opt.id, p1SpecialName := opt.name)
  }

  // ---- the start buttons ----

  /** `img || fallback`: an empty upload counts as none. */
  function ImageOr(img: Option<string>, fallback: string): (s: string)
    ensures fallback != "" ==> s != ""
    ensures img.Some? && img.value != "" ==> s == img.value
    ensures img.None? || img.value == "" ==> s == fallback
  {
    if img.Some? && img.value != "" then img.value else fallback
  }

  /** The test `!formData.img && !DEFAULT_AVATAR` guarding each start button. */
  predicate Faceless(img: Option<string>, fallback: string)
  {
    (img.None? || img.value == "") && fallback == ""
  }

  /** The face checks never fire: both default avatars are non-empty. */
  lemma NeverFaceless(img: Option<string>)
    ensures !Faceless(img, DefaultAvatarP1) && !Faceless(img, DefaultAvatarP2)
  {
  }

  /** The message when the chosen ability is still locked. The option name is spliced into
      a template; `find` always succeeds (ShopTable), so "undefined" cannot appear. */
  function LockedMessage(id: SpecialId): string
  {
    var opt := Find(PowerOptions, id);
    "Unlock " + (if opt.Some? then opt.value.name else "undefined") + " first!"
  }

  /** handleSubmit. */
  function Submit(f: Form, unlocked: seq<SpecialId>): (r: Outcome<Launch>)
    ensures r.Refused? <==> f.p1SpecialId !in unlocked
    ensures r.Refused? ==> r.error == LockedMessage(f.p1SpecialId)
    ensures r.Proceed? ==> r.call.img1 != "" && r.call.img2 != ""
    ensures r.Proceed? ==> r.call.img1 == ImageOr(f.img1, DefaultAvatarP1) && r.call.img2 == ImageOr(f.img2, DefaultAvatarP2)
    ensures r.Proceed? ==> r.call.p1SpecialId == f.p1SpecialId && r.call.p2SpecialId == f.p2SpecialId
    ensures r.Proceed? ==> r.call.p1SpecialName == f.p1SpecialName && r.call.p2SpecialName == f.p2SpecialName
    ensures r.Proceed? ==> r.call.p1Name == f.p1Name && r.call.p2Name == f.p2Name
    ensures r.Proceed? ==> r.call.initialHp == f.initialHp && r.call.allowedPowerUps == f.selectedPowerUps
    ensures r.Proceed? ==> r.call.aimMode == f.aimMode && r.call.bulletImg == f.bulletImg
    ensures r.Proceed? ==> r.call.bulletVelocity == f.bulletVelocity && r.call.difficulty == f.difficulty
  {
    if Faceless(f.img1, DefaultAvatarP1) then Refused("Player 1 needs a face!")
    else if Faceless(f.img2, DefaultAvatarP2) then Refused("Player 2 needs a face!")
    else if f.p1SpecialId !in unlocked then Refused(LockedMessage(f.p1SpecialId))
    else
      NeverFaceless(f.img1);
      Proceed(Launch(
        img1 := ImageOr(f.img1, DefaultAvatarP1),
        img2 := ImageOr(f.img2, DefaultAvatarP2),
        bulletImg := f.bulletImg,
        p1SpecialName := f.p1SpecialName,
        p2SpecialName := f.p2SpecialName,
        p1SpecialId := f.p1SpecialId,
        p2SpecialId := f.p2SpecialId,
        p1Name := f.p1Name,
        p2Name := f.p2Name,
        aimMode := f.aimMode,
        initialHp := f.initialHp,
        allowedPowerUps := f.selectedPowerUps,
        bulletVelocity := f.bulletVelocity,
        difficulty := f.difficulty))
  }

  /** handleMultiplayer: the same lock gate; player two's slot is not looked at. */
  function Multiplayer(f: Form, unlocked: seq<SpecialId>): (r: Outcome<Entrant>)
    ensures r.Refused? <==> f.p1SpecialId !in unlocked
    ensures r.Refused? ==> r.error == LockedMessage(f.p1SpecialId)
    ensures r.Proceed? ==> r.call.imageSrc != "" && r.call.name != "" && r.call.specialId == f.p1SpecialId
    ensures r.Proceed? ==> r.call.imageSrc == ImageOr(f.img1, DefaultAvatarP1)
    ensures r.Proceed? ==> r.call.specialName == f.p1SpecialName
    ensures r.Proceed? ==> r.call.bulletImg == f.bulletImg && r.call.bulletVelocity == f.bulletVelocity
    ensures r.Proceed? && f.p1Name != "" ==> r.call.name == f.p1Name
    ensures r.Proceed? && f.p1Name == "" ==> r.call.name == "Player 1"
  {
    if Faceless(f.img1, DefaultAvatarP1) then Refused("Setup your player first!")
    else if f.p1SpecialId !in unlocked then Refused(LockedMessage(f.p1SpecialId))
    else
      Proceed(Entrant(
        imageSrc := ImageOr(f.img1, DefaultAvatarP1),
        name := if f.p1Name != "" then f.p1Name else "Player 1",
        specialName := f.p1SpecialName,
        specialId := f.p1SpecialId,
        bulletImg := f.bulletImg,
        bulletVelocity := f.bulletVelocity))
  }

  /** Whatever is in player two's slot, the gates look only at player one's ability. */
  lemma GateIgnoresP2(f: Form, unlocked: seq<SpecialId>, other: SpecialId)
    ensures Submit(f, unlocked).Refused? == Submit(f.(p2SpecialId := other), unlocked).Refused?
    ensures Multiplayer(f, unlocked) == Multiplayer(f.(p2SpecialId := other), unlocked)
  {
  }

  /** An entrant built by the multiplayer button always brings a name, so the host never
      falls back to the generated one. */
  lemma JoinedKeepsEntrantName(f: Form, unlocked: seq<SpecialId>, st: FighterStats)
    requires Multiplayer(f, unlocked).Proceed?
    ensures Shell.Joined(st, Multiplayer(f, unlocked).call).name == Multiplayer(f, unlocked).call.name
  {
  }
}
