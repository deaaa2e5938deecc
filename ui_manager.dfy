/**
 * `UIManager`: four screens (main menu, game, map, pause), the panels each one
 * shows, the AR session switch, the global time scale, and the Android back
 * button. Every method that sets the state reports the new state.
 */
module UI {

  datatype UIState = MainMenu | Game | Map | Paused

  /** A panel reference: unassigned, or a scene object and whether it is active. */
  datatype Panel = Missing | Present(active: bool)

  /** `SetPanelActive`: a missing panel is left alone. */
  function SetPanelActive(panel: Panel, active: bool): Panel
  {
    if panel.Missing? then Missing else Present(active)
  }

  /** What the manager controls: its state, its panels, `Time.timeScale`, whether quitting was requested, and the `OnStateChanged` reports. */
  datatype Screen = Screen(
    state: UIState,
    mainMenuPanel: Panel, gameHUDPanel: Panel, mapPanel: Panel, pausePanel: Panel,
    arSessionOrigin: Panel,
    timeScale: real,
    quitRequested: bool,
    stateEvents: seq<UIState>)

  datatype UIAction = ShowMainMenu | StartGame | ShowMap | HideMap | ToggleMap | ShowPause | ResumeGame | QuitGame | Back

  /** `HandleBackButton`: the method each state's back press calls. */
  function BackAction(state: UIState): (a: UIAction)
    ensures a != Back && a != ToggleMap
  {
    match state
    case Game => ShowPause
    case Map => HideMap
    case Paused => ResumeGame
    case MainMenu => QuitGame
  }

  /** A method that sets `CurrentState` to `state` and reports it. */
  function Enter(s: Screen, state: UIState): Screen
  {
    s.(state := state, stateEvents := s.stateEvents + [state])
  }

  /** Each public method of the manager, as written. */
  function Step(s: Screen, a: UIAction): (r: Screen)
    ensures a != QuitGame && a != Back ==> r.stateEvents == s.stateEvents + [r.state] && !r.quitRequested == !s.quitRequested
    ensures a == QuitGame ==> r == s.(timeScale := 1.0, quitRequested := true)
    ensures a == ToggleMap ==> r.state == (if s.state == Map then Game else Map)
    ensures a == ShowPause ==> r.state == Paused && r.timeScale == 0.0
    ensures a == ResumeGame ==> r.state == Game && r.timeScale == 1.0
    ensures a != ShowPause && a != ResumeGame && a != QuitGame && a != Back ==> r.timeScale == s.timeScale
    decreases a == Back
  {
    match a
    case ShowMainMenu =>
      Enter(s.(mainMenuPanel := SetPanelActive(s.mainMenuPanel, true),
               gameHUDPanel := SetPanelActive(s.gameHUDPanel, false),
               mapPanel := SetPanelActive(s.mapPanel, false),
               pausePanel := SetPanelActive(s.pausePanel, false),
               arSessionOrigin := SetPanelActive(s.arSessionOrigin, false)), MainMenu)
    case StartGame =>
      Enter(s.(mainMenuPanel := SetPanelActive(s.mainMenuPanel, false),
               gameHUDPanel := SetPanelActive(s.gameHUDPanel, true),
               mapPanel := SetPanelActive(s.mapPanel, false),
               pausePanel := SetPanelActive(s.pausePanel, false),
               arSessionOrigin := SetPanelActive(s.arSessionOrigin, true)), Game)
    case ShowMap => Enter(s.(mapPanel := SetPanelActive(s.mapPanel, true)), Map)
    case HideMap => Enter(s.(mapPanel := SetPanelActive(s.mapPanel, false)), Game)
    case ToggleMap =>
      if s.state == Map then Enter(s.(mapPanel := SetPanelActive(s.mapPanel, false)), Game)
      else Enter(s.(mapPanel := SetPanelActive(s.mapPanel, true)), Map)
    case ShowPause => Enter(s.(pausePanel := SetPanelActive(s.pausePanel, true), timeScale := 0.0), Paused)
    case ResumeGame => Enter(s.(pausePanel := SetPanelActive(s.pausePanel, false), timeScale := 1.0), Game)
    case QuitGame => s.(timeScale := 1.0, quitRequested := true)
    case Back => Step(s, BackAction(s.state))
  }

  /** Actions one after another. */
  function Run(s: Screen, actions: seq<UIAction>): (r: Screen)
    ensures s.stateEvents <= r.stateEvents
    ensures s.quitRequested ==> r.quitRequested
    decreases |actions|
  {
    if |actions| == 0 then s else Run(Step(s, actions[0]), actions[1..])
  }

  /** The back button: game to pause, map to game, pause to game (time running), main menu to quit. */
  lemma BackButtonTable(s: Screen)
    ensures var r := Step(s, Back);
      && (s.state == Game ==> r.state == Paused && r.timeScale == 0.0 && r.stateEvents == s.stateEvents + [Paused])
      && (s.state == Map ==> r.state == Game && r.stateEvents == s.stateEvents + [Game])
      && (s.state == Paused ==> r.state == Game && r.timeScale == 1.0 && r.stateEvents == s.stateEvents + [Game])
      && (s.state == MainMenu ==> r.state == MainMenu && r.quitRequested && r.stateEvents == s.stateEvents)
  {
  }

  predicate Shown(panel: Panel) { panel.Missing? || panel.active }
  predicate Hidden(panel: Panel) { panel.Missing? || !panel.active }

  /** `ShowMainMenu` leaves only the main-menu panel active and the AR session off; `StartGame` only the HUD, with AR on. */
  lemma ScreensShowOnePanel(s: Screen)
    ensures var m := Step(s, ShowMainMenu);
      && m.state == MainMenu && Shown(m.mainMenuPanel) && Hidden(m.gameHUDPanel)
      && Hidden(m.mapPanel) && Hidden(m.pausePanel) && Hidden(m.arSessionOrigin)
    ensures var g := Step(s, StartGame);
      && g.state == Game && Hidden(g.mainMenuPanel) && Shown(g.gameHUDPanel)
      && Hidden(g.mapPanel) && Hidden(g.pausePanel) && Shown(g.arSessionOrigin)
  {
  }

  /**
   * As written, neither `ShowMainMenu` nor `StartGame` restores the time scale, so
   * pausing, leaving through the pause menu's main-menu button and starting again
   * puts the game on screen with time stopped.
   */
  lemma RestartAfterPauseStaysFrozen(s: Screen)
    ensures var r := Run(s, [StartGame, ShowPause, ShowMainMenu, StartGame]);
      r.state == Game && r.timeScale == 0.0
  {
    var s1 := Step(s, StartGame);
    var s2 := Step(s1, ShowPause);
    var s3 := Step(s2, ShowMainMenu);
    assert [StartGame, ShowPause, ShowMainMenu, StartGame][1..] == [ShowPause, ShowMainMenu, StartGame];
    assert [ShowPause, ShowMainMenu, StartGame][1..] == [ShowMainMenu, StartGame];
    assert [ShowMainMenu, StartGame][1..] == [StartGame];
    assert Run(s, [StartGame, ShowPause, ShowMainMenu, StartGame]) == Step(s3, StartGame);
  }

  /** The evident intent: the main menu and a started game always run at normal speed. */
  function StepResumingTime(s: Screen, a: UIAction): (r: Screen)
    ensures a == ShowMainMenu || a == StartGame ==> r.timeScale == 1.0
    ensures a != ShowMainMenu && a != StartGame ==> r == Step(s, a)
  {
    var r := Step(s, a);
    if a == ShowMainMenu || a == StartGame then r.(timeScale := 1.0) else r
  }

  function RunResumingTime(s: Screen, actions: seq<UIAction>): Screen
    decreases |actions|
  {
    if |actions| == 0 then s else RunResumingTime(StepResumingTime(s, actions[0]), actions[1..])
  }

  /** With the time scale restored, time is stopped only on the pause screen, whatever sequence is run. */
  lemma {:induction false} TimeStopsOnlyWhenPaused(s: Screen, actions: seq<UIAction>)
    requires s.timeScale == 0.0 ==> s.state == Paused
    requires forall k :: 0 <= k < |actions| ==> actions[k] != HideMap && actions[k] != ShowMap && actions[k] != ToggleMap
    ensures var r := RunResumingTime(s, actions);
      r.timeScale == 0.0 ==> r.state == Paused
    decreases |actions|
  {
    if |actions| > 0 {
      var next := StepResumingTime(s, actions[0]);
      assert next.timeScale == 0.0 ==> next.state == Paused by {
        if actions[0] == Back {
          assert next == Step(s, BackAction(s.state));
        }
      }
      TimeStopsOnlyWhenPaused(next, actions[1..]);
    }
  }

  class UIManager {
    var mainMenuPanel: Panel
    var gameHUDPanel: Panel
    var mapPanel: Panel
    var pausePanel: Panel
    var arSessionOrigin: Panel
    var currentState: UIState
    /** `Time.timeScale`. */
    var timeScale: real
    /** `Application.Quit` was called. */
    var quitRequested: bool
    /** The `OnStateChanged` reports, in order. */
    var stateEvents: seq<UIState>

    function Current(): Screen
      reads this
    {
      Screen(currentState, mainMenuPanel, gameHUDPanel, mapPanel, pausePanel, arSessionOrigin,
                timeScale, quitRequested, stateEvents)
    }

    /** The manager before `Start`: state `MainMenu`, time running. */
    constructor (mainMenuPanel: Panel, gameHUDPanel: Panel, mapPanel: Panel, pausePanel: Panel, arSessionOrigin: Panel)
      ensures Current() == Screen(MainMenu, mainMenuPanel, gameHUDPanel, mapPanel, pausePanel, arSessionOrigin, 1.0, false, [])
    {
      this.mainMenuPanel := mainMenuPanel;
      this.gameHUDPanel := gameHUDPanel;
      this.mapPanel := mapPanel;
      this.pausePanel := pausePanel;
      this.arSessionOrigin := arSessionOrigin;
      currentState := MainMenu;
      timeScale := 1.0;
      quitRequested := false;
      stateEvents := [];
    }

    /** `Start`: the main menu is shown and reported. */
    method Start()
      modifies this
      ensures Current() == Step(old(Current()), UIAction.ShowMainMenu)
    {
      ShowMainMenu();
    }

    method ShowMainMenu()
      modifies this
      ensures Current() == Step(old(Current()), UIAction.ShowMainMenu)
    {
      mainMenuPanel := SetPanelActive(mainMenuPanel, true);
      gameHUDPanel := SetPanelActive(gameHUDPanel, false);
      mapPanel := SetPanelActive(mapPanel, false);
      pausePanel := SetPanelActive(pausePanel, false);
      arSessionOrigin := SetPanelActive(arSessionOrigin, false);
      currentState := MainMenu;
      stateEvents := stateEvents + [currentState];
    }

    method StartGame()
      modifies this
      ensures Current() == Step(old(Current()), UIAction.StartGame)
    {
      mainMenuPanel := SetPanelActive(mainMenuPanel, false);
      gameHUDPanel := SetPanelActive(gameHUDPanel, true);
      mapPanel := SetPanelActive(mapPanel, false);
      pausePanel := SetPanelActive(pausePanel, false);
      arSessionOrigin := SetPanelActive(arSessionOrigin, true);
      currentState := Game;
      stateEvents := stateEvents + [currentState];
    }

    method ShowMap()
      modifies this
      ensures Current() == Step(old(Current()), UIAction.ShowMap)
    {
      mapPanel := SetPanelActive(mapPanel, true);
      currentState := Map;
      stateEvents := stateEvents + [currentState];
    }

    method HideMap()
      modifies this
      ensures Current() == Step(old(Current()), UIAction.HideMap)
    {
      mapPanel := SetPanelActive(mapPanel, false);
      currentState := Game;
      stateEvents := stateEvents + [currentState];
    }

    method ToggleMap()
      modifies this
      ensures Current() == Step(old(Current()), UIAction.ToggleMap)
    {
      if currentState == Map {
        HideMap();
      } else {
        ShowMap();
      }
    }

    method ShowPause()
      modifies this
      ensures Current() == Step(old(Current()), UIAction.ShowPause)
    {
      pausePanel := SetPanelActive(pausePanel, true);
      timeScale := 0.0;
      currentState := Paused;
      stateEvents := stateEvents + [currentState];
    }

    method ResumeGame()
      modifies this
      ensures Current() == Step(old(Current()), UIAction.ResumeGame)
    {
      pausePanel := SetPanelActive(pausePanel, false);
      timeScale := 1.0;
      currentState := Game;
      stateEvents := stateEvents + [currentState];
    }

    /** `QuitGame`: time restored and the application asked to quit; the state is not changed. */
    method QuitGame()
      modifies this
      ensures Current() == Step(old(Current()), UIAction.QuitGame)
    {
      timeScale := 1.0;
      quitRequested := true;
    }

    method HandleBackButton()
      modifies this
      ensures Current() == Step(old(Current()), Back)
    {
      match currentState
      case Game => ShowPause();
      case Map => HideMap();
      case Paused => ResumeGame();
      case MainMenu => QuitGame();
    }
  }
}
