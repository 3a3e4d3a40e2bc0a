/** The top-level application (App.tsx): a small machine over the screens
    the player sees, the end-of-run bookkeeping (best score and leaderboard)
    and what it keeps in the browser's storage between visits. */
module AppShell {
  import opened Wrappers
  import opened Constants
  import opened Types
  import opened Leaderboard

  /** The screens (the legacy GameState enum, types.ts). */
  datatype Screen = NameInput | StartMenu | Instructions | Playing | Paused | GameOver | LeaderboardScreen

  /** What the app finds in, and writes to, the browser's storage: the player
      name, the best score (already parsed as an integer) and the leaderboard. */
  datatype Stored = Stored(name: Option<string>, highScore: Option<int>, leaderboard: Option<seq<Entry>>)

  datatype AppState = AppState(
    screen: Screen,
    playerName: Option<string>,
    score: int,
    highScore: int,
    leaderboard: seq<Entry>,
    stats: Stats,
    musicPlaying: bool,
    storage: Stored)

  /** The state before the first render's storage load. */
  function Initial(storage: Stored): (s: AppState)
    ensures s.screen == NameInput && s.playerName == None && s.leaderboard == []
    ensures s.score == 0 && s.highScore == 0 && s.stats == ZeroStats && s.storage == storage
  {
    AppState(NameInput, None, 0, 0, [], ZeroStats, false, storage)
  }

  /** The player's actions and the game's report, each a handler of the app. */
  datatype Event =
    | Loaded
    | NameSubmitted(name: string)
    | StartGame
    | ShowInstructions
    | ShowLeaderboard
    | BackToMenu
    | Pause
    | Resume
    | GameEnded(finalScore: int, runStats: Stats)
    | ToggleMusic

  /** The load on first render: a non-empty stored name is taken and opens
      the start menu (an empty string is falsy and ignored), and a stored best
      score and leaderboard are taken as they are. */
  function Load(s: AppState): (r: AppState)
    ensures r == s.(playerName := r.playerName, screen := r.screen, highScore := r.highScore, leaderboard := r.leaderboard)
    ensures s.storage.name.Some? && s.storage.name.value != "" ==>
      r.playerName == s.storage.name && r.screen == StartMenu
    ensures !(s.storage.name.Some? && s.storage.name.value != "") ==>
      r.playerName == s.playerName && r.screen == s.screen
    ensures r.highScore == if s.storage.highScore.Some? then s.storage.highScore.value else s.highScore
    ensures r.leaderboard == if s.storage.leaderboard.Some? then s.storage.leaderboard.value else s.leaderboard
  {
    var st := s.storage;
    var named := if st.name.Some? && st.name.value != "" then s.(playerName := st.name, screen := StartMenu) else s;
    var best := if st.highScore.Some? then named.(highScore := st.highScore.value) else named;
    if st.leaderboard.Some? then best.(leaderboard := st.leaderboard.value) else best
  }

  /** The run's end: score and counters recorded, the best score raised only
      when beaten (and then stored), the run merged into the leaderboard
      (and stored), and the game-over screen shown. The player name is
      asserted present at this point. */
  function EndRun(s: AppState, finalScore: int, runStats: Stats): AppState
    requires s.playerName.Some?
  {
    var raised := finalScore > s.highScore;
    var board := Merge(s.leaderboard, Entry(s.playerName.value, finalScore));
    s.(score := finalScore, stats := runStats,
       highScore := if raised then finalScore else s.highScore,
       leaderboard := board,
       screen := GameOver,
       storage := s.storage.(highScore := if raised then Some(finalScore) else s.storage.highScore,
                             leaderboard := Some(board)))
  }

  /** One handler. */
  function Step(s: AppState, ev: Event): AppState
    requires ev.GameEnded? ==> s.playerName.Some?
  {
    match ev
    case Loaded => Load(s)
    case NameSubmitted(name) => s.(playerName := Some(name), storage := s.storage.(name := Some(name)), screen := StartMenu)
    case StartGame => s.(score := 0, stats := ZeroStats, screen := Playing)
    case ShowInstructions => s.(screen := Instructions)
    case ShowLeaderboard => s.(screen := LeaderboardScreen)
    case BackToMenu => s.(screen := StartMenu)
    case Pause => if s.screen == Playing then s.(screen := Paused) else s
    case Resume => s.(screen := Playing)
    case GameEnded(finalScore, runStats) => EndRun(s, finalScore, runStats)
    case ToggleMusic => s.(musicPlaying := !s.musicPlaying)
  }

  /** The handlers the rendered screen offers: the name prompt only takes a
      name (and is where the first-render load happens; the music button is
      hidden there); the menu starts a game or opens a page; the pages go
      back; the running game can pause, end or have the music toggled; the
      pause menu resumes, restarts or goes back; the game-over screen
      restarts. */
  predicate Available(screen: Screen, ev: Event) {
    match screen
    case NameInput => ev.Loaded? || ev.NameSubmitted?
    case StartMenu => ev.StartGame? || ev.ShowInstructions? || ev.ShowLeaderboard? || ev.ToggleMusic?
    case Instructions => ev.BackToMenu? || ev.ToggleMusic?
    case LeaderboardScreen => ev.BackToMenu? || ev.ToggleMusic?
    case Playing => ev.Pause? || ev.GameEnded? || ev.ToggleMusic?
    case Paused => ev.Resume? || ev.StartGame? || ev.BackToMenu? || ev.Pause? || ev.GameEnded? || ev.ToggleMusic?
    case GameOver => ev.StartGame? || ev.ToggleMusic?
  }

  /** Away from the name prompt a player name is always known. */
  predicate AppValid(s: AppState) {
    s.screen != NameInput ==> s.playerName.Some?
  }

  lemma InitialValid(storage: Stored)
    ensures AppValid(Initial(storage))
  {
  }

  /** Every handler the screen offers keeps a name known once the prompt is
      left, so the run's end, offered only while playing or paused, always
      has a name to put on the leaderboard. */
  lemma StepKeepsValid(s: AppState, ev: Event)
    requires AppValid(s) && Available(s.screen, ev)
    ensures ev.GameEnded? ==> s.playerName.Some?
    ensures AppValid(Step(s, ev))
    ensures (Step(s, ev).screen == Playing || Step(s, ev).screen == Paused) ==> Step(s, ev).playerName.Some?
  {
  }

  /** The name prompt is never re-entered: only a pause attempt or a load
      without a usable stored name leaves the app on it. */
  lemma NameInputNeverReentered(s: AppState, ev: Event)
    requires ev.GameEnded? ==> s.playerName.Some?
    ensures Step(s, ev).screen == NameInput ==> s.screen == NameInput
    ensures s.screen == NameInput && (ev.NameSubmitted? || (ev.Loaded? && s.storage.name.Some? && s.storage.name.value != ""))
            ==> Step(s, ev).screen == StartMenu
  {
  }

  /** Pausing changes the screen only from the running game, and resuming
      undoes it. */
  lemma PauseOnlyFromPlaying(s: AppState)
    ensures Step(s, Pause).screen != s.screen <==> s.screen == Playing
    ensures s.screen == Playing ==> Step(s, Pause).screen == Paused
    ensures s.screen == Playing ==> Step(Step(s, Pause), Resume) == s
  {
  }

  /** Starting a game clears the score and counters and enters the game. */
  lemma StartGameResets(s: AppState)
    ensures Step(s, StartGame).screen == Playing
    ensures Step(s, StartGame).score == 0 && Step(s, StartGame).stats == ZeroStats
    ensures Step(s, StartGame).highScore == s.highScore && Step(s, StartGame).leaderboard == s.leaderboard
  {
  }

  /** The run's end always shows the game-over screen with the run's score
      and counters; the best score becomes the larger of the old best and
      the run; the leaderboard is the merge of the old one with the run, so
      it holds at most LEADERBOARD_SIZE entries in descending order. */
  lemma EndRunSpec(s: AppState, finalScore: int, runStats: Stats)
    requires s.playerName.Some?
    ensures var r := EndRun(s, finalScore, runStats);
            r.screen == GameOver && r.score == finalScore && r.stats == runStats
            && r.highScore >= s.highScore && r.highScore >= finalScore
            && (r.highScore == s.highScore || r.highScore == finalScore)
            && r.leaderboard == Merge(s.leaderboard, Entry(s.playerName.value, finalScore))
            && |r.leaderboard| <= LEADERBOARD_SIZE && SortedDesc(r.leaderboard)
            && (r.storage.highScore != s.storage.highScore ==> r.storage.highScore == Some(finalScore) && finalScore > s.highScore)
  {
    MergeSpec(s.leaderboard, Entry(s.playerName.value, finalScore));
  }

  /** Only the storage load can lower the best score. */
  lemma HighScoreNeverDecreases(s: AppState, ev: Event)
    requires ev.GameEnded? ==> s.playerName.Some?
    requires !ev.Loaded?
    ensures Step(s, ev).highScore >= s.highScore
  {
  }

  /** What is stored survives a reload: a new session on the storage left
      behind by a non-empty name submission opens the start menu with that
      name, and one on the storage left by a run's end shows its best score
      and leaderboard. */
  lemma {:induction false} ReloadRestores(s: AppState, ev: Event)
    requires ev.GameEnded? ==> s.playerName.Some?
    requires ev.GameEnded? ==> s.storage.highScore == Some(s.highScore)
    ensures ev.NameSubmitted? && ev.name != "" ==>
              var r := Load(Initial(Step(s, ev).storage));
              r.screen == StartMenu && r.playerName == Some(ev.name)
    ensures ev.GameEnded? ==>
              var after := Step(s, ev);
              var r := Load(Initial(after.storage));
              r.highScore == after.highScore && r.leaderboard == after.leaderboard
  {
  }

  /** The application's state holder. */
  class App {
    var screen: Screen
    var playerName: Option<string>
    var score: int
    var highScore: int
    var leaderboard: seq<Entry>
    var stats: Stats
    var musicPlaying: bool
    var storage: Stored

    function View(): AppState
      reads this
    {
      AppState(screen, playerName, score, highScore, leaderboard, stats, musicPlaying, storage)
    }

    constructor (storage: Stored)
      ensures View() == Initial(storage)
    {
      screen := NameInput;
      playerName := None;
      score := 0;
      highScore := 0;
      leaderboard := [];
      stats := ZeroStats;
      musicPlaying := false;
      this.storage := storage;
    }

    /** The first-render effect reading the storage. */
    method LoadStored()
      modifies this
      ensures View() == Step(old(View()), Loaded)
    {
      if storage.name.Some? && storage.name.value != "" {
        playerName := storage.name;
        screen := StartMenu;
      }
      if storage.highScore.Some? {
        highScore := storage.highScore.value;
      }
      if storage.leaderboard.Some? {
        leaderboard := storage.leaderboard.value;
      }
    }

    method HandleNameSubmit(name: string)
      modifies this
      ensures View() == Step(old(View()), NameSubmitted(name))
    {
      playerName := Some(name);
      storage := storage.(name := Some(name));
      screen := StartMenu;
    }

    method HandleToggleMusic()
      modifies this
      ensures View() == Step(old(View()), ToggleMusic)
    {
      musicPlaying := !musicPlaying;
    }

    method HandleStartGame()
      modifies this
      ensures View() == Step(old(View()), StartGame)
    {
      score := 0;
      stats := ZeroStats;
      screen := Playing;
    }

    method HandleShowInstructions()
      modifies this
      ensures View() == Step(old(View()), ShowInstructions)
    {
      screen := Instructions;
    }

    method HandleShowLeaderboard()
      modifies this
      ensures View() == Step(old(View()), ShowLeaderboard)
    {
      screen := LeaderboardScreen;
    }

    method HandleBackToMenu()
      modifies this
      ensures View() == Step(old(View()), BackToMenu)
    {
      screen := StartMenu;
    }

    method HandlePause()
      modifies this
      ensures View() == Step(old(View()), Pause)
    {
      if screen == Playing {
        screen := Paused;
      }
    }

    method HandleResume()
      modifies this
      ensures View() == Step(old(View()), Resume)
    {
      screen := Playing;
    }

    method HandleGameOver(finalScore: int, runStats: Stats)
      requires playerName.Some?
      modifies this
      ensures View() == Step(old(View()), GameEnded(finalScore, runStats))
    {
      score := finalScore;
      stats := runStats;
      if finalScore > highScore {
        highScore := finalScore;
        storage := storage.(highScore := Some(finalScore));
      }
      var board := Merge(leaderboard, Entry(playerName.value, finalScore));
      leaderboard := board;
      storage := storage.(leaderboard := Some(board));
      screen := GameOver;
    }
  }
}
