// The records the setup form and the screen controller share (App.tsx and
// components/UploadSection.tsx).
module Forms {
  import opened Types

  /** The persistent form record (`INITIAL_FORM_DATA` in App.tsx); an image is None until
      one is uploaded. */
  datatype Form = Form(
    img1: Option<string>,
    img2: Option<string>,
    bulletImg: Option<string>,
    p1Name: string,
    p2Name: string,
    p1SpecialName: string,
    p2SpecialName: string,
    p1SpecialId: SpecialId,
    p2SpecialId: SpecialId,
    aimMode: AimMode,
    initialHp: real,
    difficulty: real,
    bulletVelocity: real,
    selectedPowerUps: set<PowerUpType>)

  const InitialForm := Form(
    img1 := None, img2 := None, bulletImg := None,
    p1Name := "", p2Name := "",
    p1SpecialName := "GMASTI", p2SpecialName := "6FTBADDIE",
    p1SpecialId := GMasti, p2SpecialId := SixFtBaddie,
    aimMode := Manual,
    initialHp := 150.0, difficulty := 1.0, bulletVelocity := 12.0,
    selectedPowerUps := {Heal, Speed, Power, BlackHole})

  /** One card of the ability shop (`POWER_OPTIONS`); the description text is left out. */
  datatype PowerOption = PowerOption(id: SpecialId, name: string, price: int)

  /** The arguments handed to onImagesReady. */
  datatype Launch = Launch(
    img1: string,
    img2: string,
    bulletImg: Option<string>,
    p1SpecialName: string,
    p2SpecialName: string,
    p1SpecialId: SpecialId,
    p2SpecialId: SpecialId,
    p1Name: string,
    p2Name: string,
    aimMode: AimMode,
    initialHp: real,
    allowedPowerUps: set<PowerUpType>,
    bulletVelocity: real,
    difficulty: real)

  /** An error for the form, or the call the button makes. */
  datatype Outcome<T> = Refused(error: string) | Proceed(call: T)

  /** The fighter a player brings to an online match (handleMultiplayer's payload). */
  datatype Entrant = Entrant(
    imageSrc: string,
    name: string,
    specialName: string,
    specialId: SpecialId,
    bulletImg: Option<string>,
    bulletVelocity: real)
}
