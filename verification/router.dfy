/** The navigation state machine of the top-level `Router` component: the
    state record it keeps, the event handlers that update it, and the choice
    of screen and overlays it renders from that record. */
module Router {
  import opened Wrappers
  import Profiles
  import LoginForm

  datatype View = Landing | Login | App

  datatype Tab = Discover | Matches | Messages | ProfileTab | Premium

  /** The router's state. `selectedMatch` is `None` both initially (`null`)
      and after a chat was started for an unknown id (`undefined`). */
  datatype State = State(
    view: View,
    activeTab: Tab,
    showMatch: bool,
    showPremium: bool,
    showChat: bool,
    selectedMatch: Option<Profiles.Profile>)

  /** The state the router mounts with. */
  const Initial: State := State(Landing, Discover, false, false, false, None)

  /** Names of the fields of `State`, to state which ones a handler may touch. */
  datatype Field = ViewField | TabField | ShowMatchField | ShowPremiumField | ShowChatField | SelectedField

  /** The fields on which two states differ. */
  function Changed(s: State, t: State): set<Field>
  {
    (if s.view != t.view then {ViewField} else {})
    + (if s.activeTab != t.activeTab then {TabField} else {})
    + (if s.showMatch != t.showMatch then {ShowMatchField} else {})
    + (if s.showPremium != t.showPremium then {ShowPremiumField} else {})
    + (if s.showChat != t.showChat then {ShowChatField} else {})
    + (if s.selectedMatch != t.selectedMatch then {SelectedField} else {})
  }

  // ---------------------------------------------------------------------
  // Event handlers

  /** `handleSignIn`: go to the login page. */
  function SignIn(s: State): (r: State)
    ensures r.view == Login
    ensures Changed(s, r) <= {ViewField}
  {
    s.(view := Login)
  }

  /** `handleSignUp`: also goes to the login page; there is no separate
      sign-up view. */
  function SignUp(s: State): (r: State)
    ensures r.view == Login
    ensures Changed(s, r) <= {ViewField}
  {
    s.(view := Login)
  }

  /** The deferred second half of `handleLogin`: the timer callback that
      switches to the main app, whatever view is current when it fires. */
  function LoginTimerFires(s: State): (r: State)
    ensures r.view == App
    ensures Changed(s, r) <= {ViewField}
  {
    s.(view := App)
  }

  /** `handleMatch`: open the match modal for a known profile; an unknown id
      is ignored. */
  function HandleMatch(s: State, profileId: string): (r: State)
    ensures !Profiles.HasId(Profiles.SeedProfiles, profileId) ==> r == s
    ensures Profiles.HasId(Profiles.SeedProfiles, profileId) ==>
      && r.showMatch
      && r.selectedMatch.Some?
      && r.selectedMatch.value in Profiles.SeedProfiles
      && r.selectedMatch.value.id == profileId
      && Changed(s, r) <= {ShowMatchField, SelectedField}
  {
    var matched := Profiles.Find(Profiles.SeedProfiles, profileId);
    if matched.Some? then
      Profiles.FindResultIsMember(Profiles.SeedProfiles, profileId);
      s.(selectedMatch := matched, showMatch := true)
    else
      s
  }

  /** `handleStartChat`: open the chat overlay and close the match modal;
      the selection becomes the lookup result, which is absent for an
      unknown id. */
  function HandleStartChat(s: State, userId: string): (r: State)
    ensures r.showChat && !r.showMatch
    ensures r.selectedMatch.None? <==> !Profiles.HasId(Profiles.SeedProfiles, userId)
    ensures r.selectedMatch.Some? ==>
      r.selectedMatch.value in Profiles.SeedProfiles && r.selectedMatch.value.id == userId
    ensures Changed(s, r) <= {ShowChatField, ShowMatchField, SelectedField}
  {
    Profiles.FindResultIsMember(Profiles.SeedProfiles, userId);
    s.(selectedMatch := Profiles.Find(Profiles.SeedProfiles, userId), showChat := true, showMatch := false)
  }

  /** `handleTabChange`: select the tab; the premium tab also opens the
      premium modal, and the messages tab (the mock message list being
      non-empty) opens the chat with the first seed profile. */
  function HandleTabChange(s: State, tab: Tab): (r: State)
    ensures r.activeTab == tab
    ensures tab == Premium ==> r.showPremium && Changed(s, r) <= {TabField, ShowPremiumField}
    ensures tab == Messages ==>
      && r.showChat
      && r.selectedMatch == Some(Profiles.SeedProfiles[0])
      && Changed(s, r) <= {TabField, ShowChatField, SelectedField}
    ensures tab != Premium && tab != Messages ==> Changed(s, r) <= {TabField}
  {
    var s1 := s.(activeTab := tab);
    if tab == Premium then
      s1.(showPremium := true)
    else if tab == Messages && |Profiles.SeedMessages| > 0 then
      s1.(selectedMatch := Some(Profiles.SeedProfiles[0]), showChat := true)
    else
      s1
  }

  /** The chat's back button. */
  function CloseChat(s: State): (r: State)
    ensures !r.showChat
    ensures Changed(s, r) <= {ShowChatField}
  {
    s.(showChat := false)
  }

  /** The match modal's close button and its keep-swiping button. */
  function CloseMatchModal(s: State): (r: State)
    ensures !r.showMatch
    ensures Changed(s, r) <= {ShowMatchField}
  {
    s.(showMatch := false)
  }

  /** The premium modal's close button and its subscribe action. */
  function ClosePremiumModal(s: State): (r: State)
    ensures !r.showPremium
    ensures Changed(s, r) <= {ShowPremiumField}
  {
    s.(showPremium := false)
  }

  // ---------------------------------------------------------------------
  // Rendering

  /** What fills the main area below the overlays when no chat is open. */
  datatype Panel = SwipePanel | MatchesPanel | ProfilePanel | EmptyPanel

  datatype Content =
    | ChatContent(partner: Profiles.Profile)
    | TabContent(panel: Panel, highlighted: Tab)

  datatype Screen =
    | HeroScreen
    | LoginScreen
    | MainScreen(content: Content, matchModal: Option<Profiles.Profile>, premiumModal: bool)

  function PanelFor(tab: Tab): Panel
  {
    match tab
    case Discover => SwipePanel
    case Matches => MatchesPanel
    case ProfileTab => ProfilePanel
    case Messages => EmptyPanel
    case Premium => EmptyPanel
  }

  /** The screen the router renders for a state. */
  function Render(s: State): (scr: Screen)
    ensures scr.HeroScreen? <==> s.view == Landing
    ensures scr.LoginScreen? <==> s.view == Login
    ensures scr.MainScreen? <==> s.view == App
    ensures scr.MainScreen? ==>
      && (scr.content.ChatContent? <==> s.showChat && s.selectedMatch.Some?)
      && (scr.content.ChatContent? ==> s.selectedMatch == Some(scr.content.partner))
      && (scr.content.TabContent? ==> scr.content.highlighted == s.activeTab)
      && (scr.content.TabContent? ==> (scr.content.panel == SwipePanel <==> s.activeTab == Discover))
      && (scr.matchModal.Some? <==> s.showMatch && s.selectedMatch.Some?)
      && (scr.matchModal.Some? ==> scr.matchModal == s.selectedMatch)
      && (scr.premiumModal <==> s.showPremium)
  {
    match s.view
    case Landing => HeroScreen
    case Login => LoginScreen
    case App =>
      var content :=
        if s.showChat && s.selectedMatch.Some? then ChatContent(s.selectedMatch.value)
        else TabContent(PanelFor(s.activeTab), s.activeTab);
      var modal := if s.showMatch && s.selectedMatch.Some? then s.selectedMatch else None;
      MainScreen(content, modal, s.showPremium)
  }

  // ---------------------------------------------------------------------
  // Runtime: events, the pending login timers, and traces

  /** The callbacks the rendered children can invoke, plus the firing of a
      login timer. */
  datatype Event =
    | SignInClicked
    | SignUpClicked
    | LoginSubmitted(email: string, password: string)
    | LoginTimerElapsed
    | ProfileLiked(profileId: string)
    | ChatStarted(userId: string)
    | TabSelected(tab: Tab)
    | ChatBack
    | MatchModalClosed
    | KeepSwiping
    | PremiumClosed
    | PremiumSubscribed(plan: string)

  /** The router state together with the number of login timers scheduled
      and not yet fired; timers are never cancelled. */
  datatype Runtime = Runtime(ui: State, pendingTimers: nat)

  const Start: Runtime := Runtime(Initial, 0)

  /** Whether the screen rendered for `rt` wires a callback that can raise
      `ev` (a timer can fire whenever one is pending). */
  function Wired(rt: Runtime, ev: Event): (exposed: bool)
    ensures (ev.SignInClicked? || ev.SignUpClicked?) ==> (exposed <==> rt.ui.view == Landing)
    ensures ev.LoginSubmitted? ==> (exposed <==> rt.ui.view == Login)
    ensures ev.LoginTimerElapsed? ==> (exposed <==> rt.pendingTimers > 0)
    ensures ev.TabSelected? ==>
      (exposed <==> rt.ui.view == App && !(rt.ui.showChat && rt.ui.selectedMatch.Some?))
    ensures ev.ProfileLiked? ==>
      (exposed <==> rt.ui.view == App && !(rt.ui.showChat && rt.ui.selectedMatch.Some?) && rt.ui.activeTab == Discover)
    ensures ev.ChatBack? ==>
      (exposed <==> rt.ui.view == App && rt.ui.showChat && rt.ui.selectedMatch.Some?)
    ensures (ev.ChatStarted? || ev.MatchModalClosed? || ev.KeepSwiping?) ==>
      (exposed <==> rt.ui.view == App && rt.ui.showMatch && rt.ui.selectedMatch.Some?)
    ensures (ev.PremiumClosed? || ev.PremiumSubscribed?) ==>
      (exposed <==> rt.ui.view == App && rt.ui.showPremium)
  {
    var scr := Render(rt.ui);
    match ev
    case SignInClicked => scr.HeroScreen?
    case SignUpClicked => scr.HeroScreen?
    case LoginSubmitted(_, _) => scr.LoginScreen?
    case LoginTimerElapsed => rt.pendingTimers > 0
    case ProfileLiked(_) => scr.MainScreen? && scr.content.TabContent? && scr.content.panel == SwipePanel
    case TabSelected(_) => scr.MainScreen? && scr.content.TabContent?
    case ChatBack => scr.MainScreen? && scr.content.ChatContent?
    case ChatStarted(_) => scr.MainScreen? && scr.matchModal.Some?
    case MatchModalClosed => scr.MainScreen? && scr.matchModal.Some?
    case KeepSwiping => scr.MainScreen? && scr.matchModal.Some?
    case PremiumClosed => scr.MainScreen? && scr.premiumModal
    case PremiumSubscribed(_) => scr.MainScreen? && scr.premiumModal
  }

  /** The handler an event runs. `handleLogin` itself only schedules a
      timer; the view changes when the timer fires. */
  function Dispatch(rt: Runtime, ev: Event): (r: Runtime)
    requires ev.LoginTimerElapsed? ==> rt.pendingTimers > 0
    ensures ev.LoginSubmitted? ==> r.ui == rt.ui && r.pendingTimers == rt.pendingTimers + 1
    ensures ev.LoginTimerElapsed? ==> r.ui.view == App && r.pendingTimers == rt.pendingTimers - 1
    ensures !ev.LoginSubmitted? && !ev.LoginTimerElapsed? ==> r.pendingTimers == rt.pendingTimers
  {
    match ev
    case SignInClicked => rt.(ui := SignIn(rt.ui))
    case SignUpClicked => rt.(ui := SignUp(rt.ui))
    case LoginSubmitted(_, _) => rt.(pendingTimers := rt.pendingTimers + 1)
    case LoginTimerElapsed => Runtime(LoginTimerFires(rt.ui), rt.pendingTimers - 1)
    case ProfileLiked(id) => rt.(ui := HandleMatch(rt.ui, id))
    case ChatStarted(id) => rt.(ui := HandleStartChat(rt.ui, id))
    case TabSelected(t) => rt.(ui := HandleTabChange(rt.ui, t))
    case ChatBack => rt.(ui := CloseChat(rt.ui))
    case MatchModalClosed => rt.(ui := CloseMatchModal(rt.ui))
    case KeepSwiping => rt.(ui := CloseMatchModal(rt.ui))
    case PremiumClosed => rt.(ui := ClosePremiumModal(rt.ui))
    case PremiumSubscribed(_) => rt.(ui := ClosePremiumModal(rt.ui))
  }

  /** One interaction: an event whose callback is not on screen does
      nothing. */
  function Step(rt: Runtime, ev: Event): Runtime
  {
    if Wired(rt, ev) then Dispatch(rt, ev) else rt
  }

  /** The runtime after a sequence of events, oldest first. */
  function Run(rt: Runtime, evs: seq<Event>): Runtime
  {
    if |evs| == 0 then rt else Step(Run(rt, evs[..|evs| - 1]), evs[|evs| - 1])
  }

  ghost predicate Reachable(rt: Runtime)
  {
    exists evs :: Run(Start, evs) == rt
  }

  /** What holds of every state the router can get into: nothing but the
      sign-in buttons has happened while on the landing page, nothing but
      the view has changed before the main app is shown, and a selection is
      always one of the seed profiles. */
  ghost predicate Inv(rt: Runtime)
  {
    && (rt.ui.view == Landing ==> rt == Start)
    && (rt.ui.view != App ==> rt.ui == Initial.(view := rt.ui.view))
    && (rt.ui.selectedMatch.Some? ==> rt.ui.selectedMatch.value in Profiles.SeedProfiles)
  }

  // ---------------------------------------------------------------------
  // Properties

  /** The router mounts on the landing page, on the discover tab, with no
      overlay open and nothing selected, and renders the hero section. */
  lemma InitialState()
    ensures Initial.view == Landing && Initial.activeTab == Discover
    ensures !Initial.showMatch && !Initial.showPremium && !Initial.showChat
    ensures Initial.selectedMatch.None?
    ensures Render(Initial) == HeroScreen
    ensures Inv(Start)
  {
  }

  lemma StepPreservesInv(rt: Runtime, ev: Event)
    requires Inv(rt)
    ensures Inv(Step(rt, ev))
  {
  }

  lemma {:induction false} RunPreservesInv(rt: Runtime, evs: seq<Event>)
    requires Inv(rt)
    ensures Inv(Run(rt, evs))
  {
    if |evs| > 0 {
      RunPreservesInv(rt, evs[..|evs| - 1]);
      StepPreservesInv(Run(rt, evs[..|evs| - 1]), evs[|evs| - 1]);
    }
  }

  lemma ReachableSatisfiesInv(rt: Runtime)
    requires Reachable(rt)
    ensures Inv(rt)
  {
    var evs :| Run(Start, evs) == rt;
    RunPreservesInv(Start, evs);
  }

  /** Submitting the login form only schedules a timer: the router state
      is untouched until that timer fires. */
  lemma LoginSubmitSchedulesTimer(rt: Runtime, email: string, password: string)
    requires Wired(rt, LoginSubmitted(email, password))
    ensures Step(rt, LoginSubmitted(email, password)).ui == rt.ui
    ensures Step(rt, LoginSubmitted(email, password)).pendingTimers == rt.pendingTimers + 1
  {
  }

  /** In the main app the chat's back button and the bottom navigation are
      never on screen together, and liking needs the navigation (on the
      discover tab). */
  lemma ChatAndNavigationExclusive(rt: Runtime, tab: Tab, profileId: string)
    requires rt.ui.view == App
    ensures Wired(rt, ChatBack) <==> !Wired(rt, TabSelected(tab))
    ensures Wired(rt, ProfileLiked(profileId)) <==> Wired(rt, TabSelected(tab)) && rt.ui.activeTab == Discover
  {
  }

  /** From the landing page the only way out is to the login page, and it
      is taken exactly by the sign-in and sign-up buttons. */
  lemma LandingLeadsOnlyToLogin(rt: Runtime, ev: Event)
    requires Inv(rt) && rt.ui.view == Landing
    ensures Step(rt, ev).ui.view in {Landing, Login}
    ensures Step(rt, ev).ui.view == Login <==> ev == SignInClicked || ev == SignUpClicked
  {
  }

  /** The main app is entered only by a pending login timer firing, and
      only from the login page. */
  lemma AppEnteredOnlyByTimer(rt: Runtime, ev: Event)
    requires Inv(rt) && rt.ui.view != App
    requires Step(rt, ev).ui.view == App
    ensures ev == LoginTimerElapsed && rt.pendingTimers > 0
    ensures rt.ui.view == Login
  {
  }

  /** Every trace from mount that ends in the main app passes through the
      login page. */
  lemma {:induction false} AppReachedThroughLogin(evs: seq<Event>)
    requires Run(Start, evs).ui.view == App
    ensures exists k :: 0 <= k < |evs| && Run(Start, evs[..k]).ui.view == Login
  {
    var n := |evs|;
    assert n > 0;
    var prefix := evs[..n - 1];
    var before := Run(Start, prefix);
    RunPreservesInv(Start, prefix);
    if before.ui.view == App {
      AppReachedThroughLogin(prefix);
      var k :| 0 <= k < |prefix| && Run(Start, prefix[..k]).ui.view == Login;
      assert prefix[..k] == evs[..k];
    } else {
      AppEnteredOnlyByTimer(before, evs[n - 1]);
    }
  }

  /** Signing in (or up) from the landing page, submitting the login form
      and letting the timer fire shows the main app on the discover tab with
      no overlay open. */
  lemma LoginScenario(f: LoginForm.Form, viaSignUp: bool)
    ensures
      var c := LoginForm.HandleSubmit(f);
      var evs := [if viaSignUp then SignUpClicked else SignInClicked, LoginSubmitted(c.email, c.password), LoginTimerElapsed];
      && Run(Start, evs[..1]).ui.view == Login
      && Run(Start, evs[..2]).pendingTimers == 1
      && Run(Start, evs) == Runtime(Initial.(view := App), 0)
  {
  }

  /** Liking profile "2" opens the match modal for Marcus & Sarah; starting
      the chat from it then opens the chat and closes the modal. */
  lemma MatchThenChatScenario(rt: Runtime)
    requires rt.ui.view == App && rt.ui.activeTab == Discover && !rt.ui.showChat
    ensures
      var rt1 := Step(rt, ProfileLiked("2"));
      var rt2 := Step(rt1, ChatStarted("2"));
      && rt1.ui.showMatch
      && rt1.ui.selectedMatch.Some? && rt1.ui.selectedMatch.value.name == "Marcus & Sarah"
      && rt2.ui.showChat && !rt2.ui.showMatch
      && rt2.ui.selectedMatch == rt1.ui.selectedMatch
      && Render(rt2.ui).content == ChatContent(Profiles.SeedProfiles[1])
  {
  }

  /** Selecting the premium or messages tab opens its overlay whatever the
      previous tab and flags were. */
  lemma TabOverlaysRegardlessOfHistory(s: State)
    ensures HandleTabChange(s, Premium).showPremium
    ensures Render(HandleTabChange(s, Premium).(view := App)).premiumModal
    ensures Render(HandleTabChange(s, Messages).(view := App)).content == ChatContent(Profiles.SeedProfiles[0])
  {
  }

  /** Closing any overlay keeps the selection, so reopening the match modal
      afterwards shows the same profile. */
  lemma ClosingKeepsSelection(s: State)
    ensures CloseChat(s).selectedMatch == s.selectedMatch
    ensures CloseMatchModal(s).selectedMatch == s.selectedMatch
    ensures ClosePremiumModal(s).selectedMatch == s.selectedMatch
    ensures CloseMatchModal(s).activeTab == s.activeTab && CloseMatchModal(s).showChat == s.showChat
  {
  }

  /** Matching an unknown id changes nothing, on screen or off. */
  lemma UnknownMatchIsNoOp(rt: Runtime, profileId: string)
    requires profileId !in {"1", "2", "3"}
    ensures Step(rt, ProfileLiked(profileId)) == rt
  {
    Profiles.SeedLookupDomain(profileId);
  }

  /** In any reachable state, an open chat or match modal always shows one of
      the seed profiles. */
  lemma OverlaysShowSeedProfiles(rt: Runtime)
    requires Reachable(rt)
    ensures Render(rt.ui).MainScreen? && Render(rt.ui).content.ChatContent? ==>
      Render(rt.ui).content.partner in Profiles.SeedProfiles
    ensures Render(rt.ui).MainScreen? && Render(rt.ui).matchModal.Some? ==>
      Render(rt.ui).matchModal.value in Profiles.SeedProfiles
    ensures rt.ui.view != App ==> !rt.ui.showMatch && !rt.ui.showChat && !rt.ui.showPremium && rt.ui.activeTab == Discover
  {
    ReachableSatisfiesInv(rt);
  }
}
