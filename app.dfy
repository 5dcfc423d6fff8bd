// The screen controller (App.tsx): the coin economy, the hand-over from the setup form to the
// arena, the online handshake on the host side, and the reset and rematch buttons.
module Shell {
  import opened Types
  import opened StatGen
  import opened Forms

  // ---- the economy ----

  /** The coins and the unlocked abilities, in unlock order. */
  datatype Wallet = Wallet(coins: int, unlocked: seq<SpecialId>)

  predicate Distinct(s: seq<SpecialId>)
  {
    forall i, j :: 0 <= i < j < |s| ==> s[i] != s[j]
  }

  /** No debt, every ability unlocked at most once, GMASTI always owned. */
  predicate Solvent(w: Wallet)
  {
    w.coins >= 0 && Distinct(w.unlocked) && GMasti in w.unlocked
  }

  /** handleBuyAbility: whether it succeeded and the wallet afterwards. */
  function Buy(w: Wallet, id: SpecialId, cost: int): (r: (bool, Wallet))
    ensures r.0 <==> w.coins >= cost && id !in w.unlocked
    ensures r.0 ==> r.1.coins == w.coins - cost && r.1.unlocked == w.unlocked + [id]
    ensures !r.0 ==> r.1 == w
  {
    if w.coins >= cost && id !in w.unlocked then (true, Wallet(w.coins - cost, w.unlocked + [id]))
    else (false, w)
  }

  /** A purchase never puts the wallet into debt nor unlocks anything twice, whatever the
      price: the gate compares the coins with the very cost it subtracts. */
  lemma BuyKeepsSolvent(w: Wallet, id: SpecialId, cost: int)
    requires Solvent(w)
    ensures Solvent(Buy(w, id, cost).1)
    ensures w.unlocked <= Buy(w, id, cost).1.unlocked
  {
  }

  /** A run of shop clicks, one (ability, price) pair per click. */
  function Spree(w: Wallet, orders: seq<(SpecialId, int)>): Wallet
    decreases |orders|
  {
    if |orders| == 0 then w else Spree(Buy(w, orders[0].0, orders[0].1).1, orders[1..])
  }

  /** However many purchases are attempted, coins stay non-negative, nothing is unlocked
      twice and nothing already unlocked is lost. */
  lemma {:induction false} SpreeKeepsSolvent(w: Wallet, orders: seq<(SpecialId, int)>)
    requires Solvent(w)
    ensures Solvent(Spree(w, orders))
    ensures w.unlocked <= Spree(w, orders).unlocked
    decreases |orders|
  {
    if |orders| > 0 {
      var next := Buy(w, orders[0].0, orders[0].1).1;
      BuyKeepsSolvent(w, orders[0].0, orders[0].1);
      SpreeKeepsSolvent(next, orders[1..]);
    }
  }

  /** The coins handleGameOver awards: `floor(100 * difficulty)` when player one won, 25
      otherwise, a draw included. */
  function Reward(result: GameResult, difficulty: real): (n: int)
    ensures result.winner.Some? && result.winner.value.id == Player1 ==> n == (100.0 * difficulty).Floor
    ensures !(result.winner.Some? && result.winner.value.id == Player1) ==> n == 25
    ensures difficulty >= 0.0 ==> n >= 0
  {
    var earned := if result.winner.Some? && result.winner.value.id == Player1 then 100.0 * difficulty else 25.0;
    earned.Floor
  }

  /** From difficulty 0.26 up a win pays more than the consolation prize of 25. */
  lemma WinPaysMore(result: GameResult, difficulty: real)
    requires result.winner.Some? && result.winner.value.id == Player1 && difficulty >= 0.26
    ensures Reward(result, difficulty) > Reward(GameResult(None, result.message), difficulty)
  {
  }

  // ---- the hand-over to the arena ----

  /** The user's entries over the generated stats: a name or move only when non-empty, and
      hp always. */
  function Override(st: FighterStats, specialMove: string, name: string, hp: real): (r: FighterStats)
    ensures r.specialMove == (if specialMove != "" then specialMove else st.specialMove)
    ensures r.name == (if name != "" then name else st.name)
    ensures r.hp == hp
    ensures r.(name := st.name, specialMove := st.specialMove, hp := st.hp) == st
  {
    var s1 := if specialMove != "" then st.(specialMove := specialMove) else st;
    var s2 := if name != "" then s1.(name := name) else s1;
    s2.(hp := hp)
  }

  /** Leaving both text fields empty keeps the generated name and move. */
  lemma EmptyOverrideOnlySetsHp(st: FighterStats, hp: real)
    ensures Override(st, "", "", hp) == st.(hp := hp)
  {
  }

  /** Applying the same entries twice is the same as once. */
  lemma OverrideIdempotent(st: FighterStats, specialMove: string, name: string, hp: real)
    ensures Override(Override(st, specialMove, name, hp), specialMove, name, hp) == Override(st, specialMove, name, hp)
  {
  }

  /** The host's view of an entrant: `name || generated`, `specialName || generated`, and
      hp forced to 200. */
  function Joined(st: FighterStats, e: Entrant): (r: FighterStats)
    ensures r.name == (if e.name != "" then e.name else st.name)
    ensures r.specialMove == (if e.specialName != "" then e.specialName else st.specialMove)
    ensures r.hp == 200.0
    ensures r.(name := st.name, specialMove := st.specialMove, hp := st.hp) == st
  {
    st.(name := if e.name != "" then e.name else st.name,
        specialMove := if e.specialName != "" then e.specialName else st.specialMove,
        hp := 200.0)
  }

  /** The fighters handleImagesReady builds: generated stats under the form's entries,
      tagged player1 and player2. */
  function Lineup(call: Launch, st: (FighterStats, FighterStats)): (FighterData, FighterData)
  {
    (FighterData(Player1, call.img1, Override(st.0, call.p1SpecialName, call.p1Name, call.initialHp), Some(call.p1SpecialId)),
     FighterData(Player2, call.img2, Override(st.1, call.p2SpecialName, call.p2Name, call.initialHp), Some(call.p2SpecialId)))
  }

  /** Both fighters start at the chosen hp, carry the chosen abilities and portraits, and
      keep the generated name and move exactly when the entry is empty. */
  lemma LineupFacts(call: Launch)
    ensures var r := Lineup(call, AnalyzeFighters(call.img1, call.img2));
      && r.0.id == Player1 && r.1.id == Player2
      && r.0.stats.hp == call.initialHp && r.1.stats.hp == call.initialHp
      && r.0.imageSrc == call.img1 && r.1.imageSrc == call.img2
      && r.0.specialId == Some(call.p1SpecialId) && r.1.specialId == Some(call.p2SpecialId)
      && r.0.stats.name == (if call.p1Name != "" then call.p1Name else "Player 1")
      && r.1.stats.name == (if call.p2Name != "" then call.p2Name else "Player 2")
      && r.0.stats.specialMove == (if call.p1SpecialName != "" then call.p1SpecialName else "Signature Move")
      && r.1.stats.specialMove == (if call.p2SpecialName != "" then call.p2SpecialName else "Signature Move")
  {
  }

  /** The assignments of handleImagesReady on the generated stats object, in place. */
  method Roster(call: Launch, stats: (FighterStats, FighterStats)) returns (d1: FighterData, d2: FighterData)
    ensures (d1, d2) == Lineup(call, stats)
  {
    var s1, s2 := stats.0, stats.1;
    if call.p1SpecialName != "" { s1 := s1.(specialMove := call.p1SpecialName); }
    if call.p2SpecialName != "" { s2 := s2.(specialMove := call.p2SpecialName); }
    if call.p1Name != "" { s1 := s1.(name := call.p1Name); }
    if call.p2Name != "" { s2 := s2.(name := call.p2Name); }
    s1 := s1.(hp := call.initialHp);
    s2 := s2.(hp := call.initialHp);
    assert s1 == Override(stats.0, call.p1SpecialName, call.p1Name, call.initialHp);
    assert s2 == Override(stats.1, call.p2SpecialName, call.p2Name, call.initialHp);
    d1 := FighterData(Player1, call.img1, s1, Some(call.p1SpecialId));
    d2 := FighterData(Player2, call.img2, s2, Some(call.p2SpecialId));
  }

  /** The fighters the host builds from the two entrants. */
  function Pairing(host: Entrant, client: Entrant, st: (FighterStats, FighterStats)): (FighterData, FighterData)
  {
    (FighterData(Player1, host.imageSrc, Joined(st.0, host), Some(host.specialId)),
     FighterData(Player2, client.imageSrc, Joined(st.1, client), Some(client.specialId)))
  }

  /** Online, both fighters start at 200 hp whatever either form says, and an empty name or
      move falls back to the generated one. */
  lemma PairingFacts(host: Entrant, client: Entrant)
    ensures var r := Pairing(host, client, AnalyzeFighters(host.imageSrc, client.imageSrc));
      && r.0.id == Player1 && r.1.id == Player2
      && r.0.stats.hp == 200.0 && r.1.stats.hp == 200.0
      && r.0.stats.name == (if host.name != "" then host.name else "Player 1")
      && r.1.stats.name == (if client.name != "" then client.name else "Player 2")
      && r.0.specialId == Some(host.specialId) && r.1.specialId == Some(client.specialId)
  {
  }

  /** The host's assignments on the generated stats object, in place. */
  method Match(host: Entrant, client: Entrant, stats: (FighterStats, FighterStats)) returns (d1: FighterData, d2: FighterData)
    ensures (d1, d2) == Pairing(host, client, stats)
  {
    var s1, s2 := stats.0, stats.1;
    s1 := s1.(name := if host.name != "" then host.name else s1.name);
    s1 := s1.(specialMove := if host.specialName != "" then host.specialName else s1.specialMove);
    s2 := s2.(name := if client.name != "" then client.name else s2.name);
    s2 := s2.(specialMove := if client.specialName != "" then client.specialName else s2.specialMove);
    s1 := s1.(hp := 200.0);
    s2 := s2.(hp := 200.0);
    assert s1 == Joined(stats.0, host);
    assert s2 == Joined(stats.1, client);
    d1 := FighterData(Player1, host.imageSrc, s1, Some(host.specialId));
    d2 := FighterData(Player2, client.imageSrc, s2, Some(client.specialId));
  }

  // ---- the controller ----

  datatype Role = Host | Client

  class Session {
    var appState: AppState
    var form: Form
    var p1Data: Option<FighterData>
    var p2Data: Option<FighterData>
    var gameResult: Option<GameResult>
    var loadingText: string
    var gameId: int
    var coins: int
    var unlocked: seq<SpecialId>
    var multiplayer: Option<Role>
    var localEntrant: Option<Entrant>
    /** The open peer, None while there is none. Its connection handler is a closure over the
        render that created the peer, so it carries the local entrant as it stood in that
        render, before the request that opened the peer had set it. */
    var peer: Option<Option<Entrant>>

    function Purse(): Wallet
      reads this
    {
      Wallet(coins, unlocked)
    }

    predicate Valid()
      reads this
    {
      Solvent(Purse()) && form.difficulty >= 0.0
    }

    /** The initial state together with the mount effect that restores the saved coins and
        unlocks, 100 coins and GMASTI alone when nothing was saved. */
    constructor(savedCoins: Option<int>, savedAbilities: Option<seq<SpecialId>>)
      ensures appState == Upload && form == InitialForm
      ensures p1Data == None && p2Data == None && gameResult == None
      ensures gameId == 0 && multiplayer == None && localEntrant == None && peer == None
      ensures loadingText == "Summoning the spirits..."
      ensures coins == (if savedCoins.Some? then savedCoins.value else 100)
      ensures unlocked == (if savedAbilities.Some? then savedAbilities.value else [GMasti])
      ensures savedCoins == None && savedAbilities == None ==> Valid()
    {
      appState := Upload;
      form := InitialForm;
      p1Data := None;
      p2Data := None;
      gameResult := None;
      loadingText := "Summoning the spirits...";
      gameId := 0;
      multiplayer := None;
      localEntrant := None;
      peer := None;
      coins := if savedCoins.Some? then savedCoins.value else 100;
      unlocked := if savedAbilities.Some? then savedAbilities.value else [GMasti];
    }

    /** handleBuyAbility. */
    method BuyAbility(id: SpecialId, cost: int) returns (ok: bool)
      requires Valid()
      modifies this
      ensures (ok, Purse()) == Buy(old(Purse()), id, cost)
      ensures Valid()
      ensures appState == old(appState) && form == old(form) && gameId == old(gameId)
      ensures p1Data == old(p1Data) && p2Data == old(p2Data) && gameResult == old(gameResult)
      ensures multiplayer == old(multiplayer) && localEntrant == old(localEntrant) && peer == old(peer)
      ensures loadingText == old(loadingText)
    {
      BuyKeepsSolvent(Purse(), id, cost);
      if coins >= cost && id !in unlocked {
        coins := coins - cost;
        unlocked := unlocked + [id];
        return true;
      }
      return false;
    }

    /** The shop's BUY button (attemptBuy in components/UploadSection.tsx): the form's error
        after the click. */
    method AttemptBuy(opt: PowerOption) returns (error: Option<string>)
      requires Valid()
      modifies this
      ensures Purse() == Buy(old(Purse()), opt.id, opt.price).1
      ensures error == if Buy(old(Purse()), opt.id, opt.price).0 then None else Some("Not enough coins!")
      ensures Valid()
      ensures appState == old(appState) && form == old(form) && gameId == old(gameId)
      ensures p1Data == old(p1Data) && p2Data == old(p2Data) && gameResult == old(gameResult)
      ensures multiplayer == old(multiplayer) && localEntrant == old(localEntrant) && peer == old(peer)
      ensures loadingText == old(loadingText)
    {
      var ok := BuyAbility(opt.id, opt.price);
      error := if ok then None else Some("Not enough coins!");
    }

    /** handleImagesReady, from the analysis request to the versus screen. The call from the
        form is taken whole, and `stats` is what the awaited analyzeFighters resolved to
        (AnalyzeFighters(call.img1, call.img2) in this repository; LineupFacts composes the
        two). The generator cannot fail, so the catch branch is not modelled. */
    method ImagesReady(call: Launch, stats: (FighterStats, FighterStats))
      requires Valid()
      modifies this
      ensures p1Data == Some(Lineup(call, stats).0) && p2Data == Some(Lineup(call, stats).1)
      ensures appState == Versus && loadingText == "Analyzing Bio-Data..."
      ensures form == old(form) && Purse() == old(Purse()) && gameId == old(gameId)
      ensures gameResult == old(gameResult) && multiplayer == old(multiplayer)
      ensures localEntrant == old(localEntrant) && peer == old(peer)
      ensures Valid()
    {
      appState := Analyzing;
      loadingText := "Analyzing Bio-Data...";
      var d1, d2 := Roster(call, stats);
      p1Data, p2Data := Some(d1), Some(d2);
      appState := Versus;
    }

    /** handleStartGame. */
    method StartGame()
      modifies this
      ensures appState == Playing
      ensures form == old(form) && Purse() == old(Purse()) && gameId == old(gameId)
      ensures p1Data == old(p1Data) && p2Data == old(p2Data) && gameResult == old(gameResult)
      ensures multiplayer == old(multiplayer) && localEntrant == old(localEntrant) && peer == old(peer)
      ensures loadingText == old(loadingText)
    {
      appState := Playing;
    }

    /** handleGameOver: records the result and pays the reward, once. */
    method GameOver(result: GameResult)
      requires Valid()
      modifies this
      ensures gameResult == Some(result) && appState == AppState.GameOver
      ensures coins == old(coins) + Reward(result, old(form).difficulty)
      ensures coins >= old(coins)
      ensures unlocked == old(unlocked) && form == old(form) && gameId == old(gameId)
      ensures p1Data == old(p1Data) && p2Data == old(p2Data)
      ensures multiplayer == old(multiplayer) && localEntrant == old(localEntrant) && peer == old(peer)
      ensures Valid()
      ensures loadingText == old(loadingText)
    {
      gameResult := Some(result);
      appState := AppState.GameOver;
      var earned: real;
      if result.winner.Some? && result.winner.value.id == Player1 {
        earned := 100.0 * form.difficulty;
      } else {
        earned := 25.0;
      }
      coins := coins + earned.Floor;
    }

    /** handleReset: back to the form, which keeps its images and settings; the peer is
        destroyed. */
    method Reset()
      modifies this
      ensures appState == Upload && p1Data == None && p2Data == None && gameResult == None
      ensures gameId == 0 && multiplayer == None && peer == None
      ensures form == old(form) && Purse() == old(Purse()) && localEntrant == old(localEntrant)
      ensures loadingText == old(loadingText)
    {
      appState := Upload;
      p1Data := None;
      p2Data := None;
      gameResult := None;
      gameId := 0;
      multiplayer := None;
      peer := None;
    }

    /** handleRematch: a fresh arena (the new gameId remounts it) with the same fighters. */
    method Rematch()
      modifies this
      ensures gameId == old(gameId) + 1 && gameResult == None && appState == Playing
      ensures form == old(form) && Purse() == old(Purse())
      ensures p1Data == old(p1Data) && p2Data == old(p2Data)
      ensures multiplayer == old(multiplayer) && localEntrant == old(localEntrant) && peer == old(peer)
      ensures loadingText == old(loadingText)
    {
      gameId := gameId + 1;
      gameResult := None;
      appState := Playing;
    }

    /** handleMultiplayerRequest: keeps the local entrant, opens the lobby and, when no peer
        is open, opens one (initPeer) whose connection handler sees the entrant of the render
        the request came from, that is the one before this request. */
    method MultiplayerRequest(e: Entrant)
      modifies this
      ensures localEntrant == Some(e) && appState == Lobby
      ensures peer == if old(peer).None? then Some(old(localEntrant)) else old(peer)
      ensures form == old(form) && Purse() == old(Purse()) && gameId == old(gameId)
      ensures p1Data == old(p1Data) && p2Data == old(p2Data) && gameResult == old(gameResult)
      ensures multiplayer == old(multiplayer)
      ensures loadingText == old(loadingText)
    {
      if peer.None? {
        peer := Some(localEntrant);
      }
      localEntrant := Some(e);
      appState := Lobby;
    }

    /** The open event of a connection (handleConnection): the online session is recorded
        with the role, host for a connection the peer received and client for one it made.
        Connections run through the peer, so without an open peer nothing changes. The
        status text and the client's message are network I/O and not modelled. */
    method ConnectionOpen(hosting: bool)
      modifies this
      ensures multiplayer == if old(peer).None? then old(multiplayer) else Some(if hosting then Host else Client)
      ensures appState == old(appState) && form == old(form) && Purse() == old(Purse()) && gameId == old(gameId)
      ensures p1Data == old(p1Data) && p2Data == old(p2Data) && gameResult == old(gameResult)
      ensures localEntrant == old(localEntrant) && peer == old(peer) && loadingText == old(loadingText)
    {
      if peer.Some? {
        multiplayer := Some(if hosting then Host else Client);
      }
    }

    /** The host's answer to the client's fighter data, run by the open peer's connection
        handler with the host entrant that handler captured: both fighters get 200 hp and
        the entrants' names and moves over the generated ones, the form takes the host's
        bullet settings at difficulty 1, and the match starts. Without an open peer no
        connection arrives and nothing changes. When the captured entrant is missing, the
        reads of its fields throw inside the try block: the screen stays on the loading
        text. `stats` is the awaited analyzeFighters result for the two portraits (see
        PairingFacts). */
    method HostHandshake(client: Entrant, stats: (FighterStats, FighterStats))
      requires Valid()
      modifies this
      ensures old(peer).None? ==>
        && appState == old(appState) && loadingText == old(loadingText)
        && p1Data == old(p1Data) && p2Data == old(p2Data) && form == old(form)
      ensures old(peer) == Some(None) ==>
        && appState == Analyzing && loadingText == "Syncing Dimensions..."
        && p1Data == old(p1Data) && p2Data == old(p2Data) && form == old(form)
      ensures old(peer).Some? && old(peer).value.Some? ==>
        var host := old(peer).value.value;
        && p1Data == Some(Pairing(host, client, stats).0) && p2Data == Some(Pairing(host, client, stats).1)
        && form == old(form).(bulletImg := host.bulletImg, bulletVelocity := host.bulletVelocity, difficulty := 1.0)
        && appState == Playing && loadingText == "Syncing Dimensions..."
      ensures Purse() == old(Purse()) && gameId == old(gameId) && gameResult == old(gameResult)
      ensures multiplayer == old(multiplayer) && localEntrant == old(localEntrant) && peer == old(peer)
      ensures Valid()
    {
      if peer.None? {
        return;
      }
      loadingText := "Syncing Dimensions...";
      appState := Analyzing;
      if peer.value.None? {
        return;
      }
      var host := peer.value.value;
      var d1, d2 := Match(host, client, stats);
      var settings := form.(bulletImg := host.bulletImg, bulletVelocity := host.bulletVelocity, difficulty := 1.0);
      p1Data, p2Data, form, appState := Some(d1), Some(d2), settings, Playing;
    }
  }

  /** The first online match of a session, hosted: the lobby's peer is opened by the very
      request that stores the host's entrant, so its handler still sees no entrant and the
      host is left on the loading screen with no fighters. */
  method FirstHostingStalls(e: Entrant, client: Entrant, stats: (FighterStats, FighterStats))
    returns (s: Session)
    ensures s.appState == Analyzing && s.loadingText == "Syncing Dimensions..."
    ensures s.p1Data == None && s.p2Data == None && s.localEntrant == Some(e)
  {
    s := new Session(None, None);
    s.MultiplayerRequest(e);
    s.HostHandshake(client, stats);
  }

  /** A later hosting, after a reset closed the first peer: the new peer's handler sees the
      entrant of the previous request, so the match starts with that one as player one. */
  method LaterHostingUsesPrevious(e1: Entrant, e2: Entrant, client: Entrant, stats: (FighterStats, FighterStats))
    returns (s: Session)
    ensures s.appState == Playing && s.localEntrant == Some(e2)
    ensures s.p1Data == Some(Pairing(e1, client, stats).0) && s.p2Data == Some(Pairing(e1, client, stats).1)
  {
    s := new Session(None, None);
    s.MultiplayerRequest(e1);
    s.Reset();
    s.MultiplayerRequest(e2);
    s.HostHandshake(client, stats);
  }
}
