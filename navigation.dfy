/**
 * The top-level page switch: landing, sign-in and symptom-checker pages,
 * changed by the pages' callbacks and by a signed-in user appearing.
 */
module Navigation {

  datatype Page = Landing | Auth | Prediction

  /** What can change the page: a handler passed to a page, or the user effect. */
  datatype Event =
    | GetStarted               // the landing page's call to action
    | AuthSucceeded            // the form reported success
    | LoggedOut                // the symptom checker's logout button
    | BackToLanding            // "Back to Home" on the sign-in or symptom-checker page
    | UserChanged(signedIn: bool)  // the effect that runs when `user` changes

  /** The page after an event. */
  function Step(page: Page, e: Event): (r: Page)
    ensures e.GetStarted? ==> r == Auth
    ensures e.AuthSucceeded? ==> r == Prediction
    ensures e.LoggedOut? || e.BackToLanding? ==> r == Landing
    ensures e.UserChanged? ==> r == if e.signedIn then Prediction else page
  {
    match e
    case GetStarted => Auth
    case AuthSucceeded => Prediction
    case LoggedOut => Landing
    case BackToLanding => Landing
    case UserChanged(signedIn) => if signedIn then Prediction else page
  }

  /** The page after a sequence of events. */
  function Run(page: Page, events: seq<Event>): Page
    decreases |events|
  {
    if events == [] then page else Run(Step(page, events[0]), events[1..])
  }

  /** An event that puts the symptom checker on screen. */
  predicate Admits(e: Event)
  {
    e.AuthSucceeded? || e == UserChanged(true)
  }

  /**
   * The symptom checker is reached only through a form submit that passes
   * the page's own checks, or a signed-in user appearing; the form's success
   * involves no call to the auth provider.
   */
  lemma {:induction false} PredictionNeedsFormOrUser(page: Page, events: seq<Event>)
    requires page != Prediction && Run(page, events) == Prediction
    ensures exists k :: 0 <= k < |events| && Admits(events[k])
    decreases |events|
  {
    if Admits(events[0]) {
    } else {
      var next := Step(page, events[0]);
      assert next != Prediction;
      PredictionNeedsFormOrUser(next, events[1..]);
      var k :| 0 <= k < |events[1..]| && Admits(events[1..][k]);
      assert events[k + 1] == events[1..][k];
    }
  }

  /** Whatever happened before, logging out or going back ends on the landing page. */
  lemma {:induction false} LastEventDecides(page: Page, events: seq<Event>, e: Event)
    requires e.LoggedOut? || e.BackToLanding?
    ensures Run(page, events + [e]) == Landing
    decreases |events|
  {
    if events == [] {
      assert events + [e] == [e];
    } else {
      assert (events + [e])[0] == events[0] && (events + [e])[1..] == events[1..] + [e];
      LastEventDecides(Step(page, events[0]), events[1..], e);
    }
  }

  /** The pages rendered: one conditional per page, none while loading. */
  function PagesShown(isLoading: bool, current: Page): (r: set<Page>)
    ensures isLoading ==> r == {}
    ensures !isLoading ==> r == {current}
    ensures |r| == if isLoading then 0 else 1
  {
    (if !isLoading && current == Landing then {Landing} else {}) +
    (if !isLoading && current == Auth then {Auth} else {}) +
    (if !isLoading && current == Prediction then {Prediction} else {})
  }

  class AppContent {
    var currentPage: Page
    /** Calls made to the auth provider's `logout`. */
    var logoutCalls: nat

    constructor ()
      ensures currentPage == Landing && logoutCalls == 0
    {
      currentPage := Landing;
      logoutCalls := 0;
    }

    method HandleGetStarted()
      modifies this`currentPage
      ensures currentPage == Step(old(currentPage), GetStarted) == Auth
    {
      currentPage := Auth;
    }

    method HandleAuthSuccess()
      modifies this`currentPage
      ensures currentPage == Step(old(currentPage), AuthSucceeded) == Prediction
    {
      currentPage := Prediction;
    }

    /** The provider's `logout` is called, then the landing page shown. */
    method HandleLogout()
      modifies this
      ensures logoutCalls == old(logoutCalls) + 1
      ensures currentPage == Step(old(currentPage), LoggedOut) == Landing
    {
      logoutCalls := logoutCalls + 1;
      currentPage := Landing;
    }

    /** The `onBack` closure given to the sign-in and symptom-checker pages. */
    method HandleBack()
      modifies this`currentPage
      ensures currentPage == Step(old(currentPage), BackToLanding) == Landing
    {
      currentPage := Landing;
    }

    /** The effect on `user`: a signed-in user moves to the symptom checker. */
    method OnUserChanged(signedIn: bool)
      modifies this`currentPage
      ensures currentPage == Step(old(currentPage), UserChanged(signedIn))
      ensures signedIn ==> currentPage == Prediction
      ensures !signedIn ==> currentPage == old(currentPage)
    {
      if signedIn {
        currentPage := Prediction;
      }
    }
  }
}
