# Spice client navigation: a Dafny model

This project models the two pieces of state logic in the Spice dating-app
client. Everything else in the client is presentation.

- **The router** (`Router` in `client/src/App.tsx`). Its state record holds:
  - the current view: landing, login or app;
  - the active bottom-navigation tab;
  - three overlay flags: match modal, premium modal and chat;
  - the selected match profile, which may be absent.

  Its event handlers act on that record. Render picks the screen and the
  overlays from that record alone.
- **The login form** (`client/src/components/LoginForm.tsx`). Its local state
  is email, password, show-password and remember-me. Derived from it are the
  sign-in button's disabled state and caption, and the submit handler that
  forwards the credentials.

Each handler is a pure function on an immutable record. A router handler's
frame ("nothing else changes") is stated with `Changed(s, t)`, the set of
fields on which two states differ. A form handler's frame is stated by
restoring the one field it sets: `r.(email := f.email) == f`. The router
handlers are connected into a runtime in three
parts:

- `Wired` says which callbacks the rendered screen actually exposes. It is
  derived from `Render`.
- `Step` runs a wired event and ignores any other event.
- `Run` folds `Step` over a trace of events.

`handleLogin` schedules a timer and does not cancel it. It is modelled as two
steps. The first increments a count of pending timers. The later
`LoginTimerElapsed` event sets the view to app, whatever the current view is.
The seed profile list and its first-match lookup (`Array.prototype.find`) are
in module `Profiles`. Both `null` and `undefined` selections are `None`.

There are three views, `landing`, `login` and `app` (App.tsx:23).
`handleSignUp` goes to the login view just as `handleSignIn` does
(App.tsx:93-95), since there is no sign-up view.

## Model

| member | source | states |
|---|---|---|
| Router.InitialState | client/src/App.tsx:23-28 | The router mounts on landing, tab discover, all three flags false, no selection, rendering the hero screen |
| Router.SignIn | client/src/App.tsx:89-91 | Sign-in moves to the login view and touches no other field |
| Router.SignUp | client/src/App.tsx:93-95 | Sign-up also moves to the login view (no separate sign-up view) and touches no other field |
| Router.LoginTimerFires | client/src/App.tsx:97-103 | The deferred login step sets the view to app and leaves tab, flags and selection untouched |
| Router.HandleMatch | client/src/App.tsx:105-111 | An id absent from the seed list leaves the state identical; a present id selects that seed profile, opens the match modal and changes nothing else |
| Router.HandleStartChat | client/src/App.tsx:113-117 | Chat opens and the match modal closes unconditionally; the selection is the seed profile with that id, and absent exactly when no seed profile has it; only those three fields change |
| Router.HandleTabChange | client/src/App.tsx:119-127 | The tab is always set; premium also opens the premium modal; messages also selects the first seed profile and opens chat; other tabs change only the tab |
| Router.CloseChat | client/src/App.tsx:163 | The chat back button clears only the chat flag |
| Router.CloseMatchModal | client/src/App.tsx:210-226 | Close and keep-swiping clear only the match flag |
| Router.ClosePremiumModal | client/src/App.tsx:229-237 | Close and subscribe clear only the premium flag |
| Router.ClosingKeepsSelection | client/src/App.tsx:210-236 | No close action clears the selection; closing the match modal keeps the tab and the chat flag |
| Router.Render | client/src/App.tsx:130-238 | Landing iff hero, login iff login form, app iff main; chat shown iff chat flag and a selection, for that selection; match modal iff match flag and a selection; premium modal iff premium flag; swipe panel iff the discover tab |
| Router.Wired | client/src/App.tsx:130-238 | Each callback is exposed exactly when its component is rendered: the hero buttons exactly on landing, the form submit exactly on login, tab selection exactly in the app with no open chat (liking additionally on the discover tab), chat back exactly in the app with the chat flag and a selection, the match-modal actions exactly in the app with the match flag and a selection, the premium actions exactly in the app with the premium flag; a timer fires exactly when one is pending |
| Router.Dispatch | client/src/App.tsx:89-236 | Routes each event to its handler (App.tsx:89-127 and the inline lambdas up to 236); its contract covers the timer half: submitting login leaves the router state untouched and schedules one more timer; a firing timer sets the app view and uses up one timer; no other event changes the pending timers |
| Router.LoginSubmitSchedulesTimer | client/src/App.tsx:97-102 | From any runtime showing the login form, a submit leaves the router state identical and adds exactly one pending timer |
| Router.ChatAndNavigationExclusive | client/src/App.tsx:155-207 | In the app, the chat's back button is exposed exactly when the bottom navigation is not, and liking is exposed exactly when the navigation is and the tab is discover |
| Router.StepPreservesInv | client/src/App.tsx:89-238 | Every wired event keeps the reachable-state invariant: landing means untouched start, overlays and tab change only inside the app, a selection is always a seed profile |
| Router.RunPreservesInv | client/src/App.tsx:89-238 | Every trace of events keeps that invariant |
| Router.ReachableSatisfiesInv | client/src/App.tsx:22-28 | Every state reachable from mount satisfies the invariant |
| Router.LandingLeadsOnlyToLogin | client/src/App.tsx:130-136 | From landing the view stays landing or becomes login, and becomes login exactly on sign-in or sign-up |
| Router.AppEnteredOnlyByTimer | client/src/App.tsx:97-103 | The app view is entered only by a pending login timer firing, and only from the login view |
| Router.AppReachedThroughLogin | client/src/App.tsx:138-149 | Every trace from mount that ends in the app passes through the login view |
| Router.LoginScenario | client/src/App.tsx:97-103 | Sign-in or sign-up, then the form's credentials, then the timer, gives the app on the discover tab with no overlay and no pending timer |
| Router.MatchThenChatScenario | client/src/App.tsx:105-117 | Liking profile "2" opens the match modal for "Marcus & Sarah"; starting the chat then opens chat with that profile and closes the modal |
| Router.TabOverlaysRegardlessOfHistory | client/src/App.tsx:119-127 | Selecting premium always shows the premium modal; selecting messages always shows the chat with the first seed profile |
| Router.UnknownMatchIsNoOp | client/src/App.tsx:106-110 | Liking an id other than "1", "2", "3" leaves the whole runtime unchanged |
| Router.OverlaysShowSeedProfiles | client/src/App.tsx:155-217 | In reachable states an open chat or match modal shows a seed profile, and outside the app no overlay flag is set and the tab is discover |
| Profiles.Find | client/src/App.tsx:106 | Lookup is absent iff no profile has the id, and otherwise returns the first profile carrying it |
| Profiles.FindResultIsMember | client/src/App.tsx:114 | A found profile is an element of the list with the requested id |
| Profiles.SeedIdsDistinct | client/src/App.tsx:31-68 | The seed profile ids are pairwise distinct |
| Profiles.FindSeedAt | client/src/App.tsx:31-68 | Looking up any seed profile's id returns that profile |
| Profiles.SeedLookupDomain | client/src/App.tsx:31-68 | The seed list answers exactly the ids "1", "2" and "3" |
| LoginForm.InitialFormSignInDisabled | client/src/components/LoginForm.tsx:21-24 | The mounted form has empty fields, so the button is disabled, and the password is masked |
| LoginForm.EditEmail | client/src/components/LoginForm.tsx:56 | Typing sets the email and leaves the other fields as they were |
| LoginForm.EditPassword | client/src/components/LoginForm.tsx:76 | Typing sets the password and leaves the other fields as they were |
| LoginForm.TogglePasswordVisibility | client/src/components/LoginForm.tsx:87 | The toggle negates the show-password flag and changes nothing else |
| LoginForm.ToggleTwiceRestores | client/src/components/LoginForm.tsx:87 | Toggling twice restores the form |
| LoginForm.PasswordInputType | client/src/components/LoginForm.tsx:74 | The input type is "text" iff the password is shown, and "password" otherwise |
| LoginForm.ToggleFlipsInputType | client/src/components/LoginForm.tsx:74-87 | Each toggle switches the input between "text" and "password" |
| LoginForm.SetRememberMe | client/src/components/LoginForm.tsx:102-106 | The checkbox sets remember-me to the checked value and changes nothing else |
| LoginForm.SignInDisabled | client/src/components/LoginForm.tsx:127 | The button is disabled iff loading, or the email is empty, or the password is empty |
| LoginForm.SignInLabel | client/src/components/LoginForm.tsx:130 | The caption is "Signing In..." iff loading, and "Sign In" otherwise |
| LoginForm.HandleSubmit | client/src/components/LoginForm.tsx:26-30 | Submit forwards exactly the current email and password |
| LoginForm.EnabledSubmitForwardsNonEmpty | client/src/components/LoginForm.tsx:124-130 | An enabled button means not loading, and submit then forwards two non-empty strings |
| LoginForm.SubmitForwardsLastTyped | client/src/components/LoginForm.tsx:21-30 | After any sequence of interactions, submit forwards the last typed email and password |
| LoginForm.TypedCredentialsRoundTrip | client/src/components/LoginForm.tsx:21-105 | Typing an email and a password and then toggling or ticking anything forwards exactly the typed pair |

## Left out

- Console logging is not modelled, and neither are the callbacks that only log: the form's `onSignup` and `onForgotPassword`, `onSendMessage`, and the filter and settings buttons. None of them changes state.
- Real timer timing is not modelled. The delay is an abstract pending step with no clock.
- The profile biography, the message text and the message timestamps are not modelled. Seed profiles keep their id, name, age, location, photo, interests and flags.
- `HeroSection`, `SwipeInterface`, `ChatInterface`, `BottomNavigation`, `MatchModal` and `PremiumModal` are not part of this model; only the callbacks the router wires into them are. The ids those children pass to `onMatch` and `onStartChat` are arbitrary event parameters.
- The provider wrappers and the route imports are not modelled, because they carry no behaviour.
- The layout, CSS classes and icons are not modelled, and neither are `BottomNavigation`'s constant badge counts.
- LoginForm.SetRememberMe: the checkbox value is a boolean. The checkbox is controlled by a boolean, so it never reports its "indeterminate" state.
- LoginForm.SignInDisabled: `isLoading` is a parameter. The router never passes it, so in the running app it is always false.
- The browser's own form validation (`required`, a disabled default button) is not modelled; `HandleSubmit` is the handler as written.
