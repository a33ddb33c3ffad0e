/**
 * The application shell (src/App.tsx): which screen is shown, the one-slot back
 * stack, and the current profile. The back stack is a value (`Nav`) with one
 * transition function per kind of handler; the shell is a class whose handlers
 * apply them.
 */
module App {
  import opened Types
  import opened Collections
  import StorageState
  import Storage

  /** The screens, with the parameters the shell passes to them. */
  datatype View =
    | Profiles
    | Home
    | LiveTv
    | About
    | Terms
    | Surprise
    | SeasonalTest
    | Search
    | SmartSearch
    | Settings
    | Cast(castId: int)
    | Detail(tmdbId: int, mediaType: MediaType)
    | Player(tmdbId: int, mediaType: MediaType, season: Option<int>, episode: Option<int>,
                 embedUrl: Option<string>, channelName: Option<string>)
    | DevPlayground

  /** The views the `handleShow*` handlers and `handlePlay` open. */
  predicate Pushable(v: View)
  {
    !v.Profiles? && !v.Home?
  }

  /** `currentView` and `previousView`. */
  datatype Nav = Nav(current: View, previous: Option<View>)

  /** The shell at start: the profile picker, nothing to go back to. */
  const Start := Nav(Profiles, None)

  /** Every `handleShow*` and handlePlay: remember the current view, then switch. */
  function Push(n: Nav, target: View): Nav
  {
    Nav(target, Some(n.current))
  }

  /** handleBack: restore the remembered view and forget it; else go home unless already there. */
  function BackNav(n: Nav): Nav
  {
    if n.previous.Some? then Nav(n.previous.value, None)
    else if !n.current.Home? then Nav(Home, n.previous)
    else n
  }

  /** handleGoHome. */
  function HomeNav(n: Nav): Nav
  {
    Nav(Home, None)
  }

  /** handleLogout (the profile is cleared by the shell). */
  function LogoutNav(n: Nav): Nav
  {
    Nav(Profiles, None)
  }

  /** handleSelectProfile: the home view; the remembered view stays. */
  function SelectNav(n: Nav): Nav
  {
    n.(current := Home)
  }

  /** Back right after opening a view returns to the view it was opened from, with nothing left to go back to. */
  lemma BackUndoesPush(n: Nav, target: View)
    ensures BackNav(Push(n, target)) == Nav(n.current, None)
  {
  }

  /**
   * The stack has one slot: after two views are opened in a row, two backs
   * lead to the middle view and then home, never to the view the first was
   * opened from (unless that was home).
   */
  lemma BackIsOneLevel(n: Nav, a: View, b: View)
    requires Pushable(a)
    ensures BackNav(Push(Push(n, a), b)) == Nav(a, None)
    ensures BackNav(BackNav(Push(Push(n, a), b))) == Nav(Home, None)
  {
  }

  /**
   * Back always leaves nothing to go back to; it stays put only on home with
   * nothing remembered; and going home or logging out clears the slot.
   */
  lemma BackLaws(n: Nav)
    ensures BackNav(n).previous.None?
    ensures BackNav(n) == n <==> n.current.Home? && n.previous.None?
    ensures n.previous.None? ==> BackNav(n).current == Home
    ensures HomeNav(n) == Nav(Home, None) && LogoutNav(n) == Nav(Profiles, None)
  {
  }

  /** What the shell renders. */
  datatype Screen = Startup | ProfilePicker | Shown(view: View, profile: Profile)

  /**
   * The render: the startup animation first, then the picker for the profiles
   * view or whenever there is no current profile, else the current view for
   * the current profile.
   */
  function Render(showStartup: bool, n: Nav, profile: Option<Profile>): Screen
  {
    if showStartup then Startup
    else if n.current.Profiles? then ProfilePicker
    else if profile.None? then ProfilePicker
    else Shown(n.current, profile.value)
  }

  /**
   * Without a current profile no view but the picker is shown; with one, every
   * view other than the profiles view is shown for it.
   */
  lemma RenderLaws(showStartup: bool, n: Nav, profile: Option<Profile>)
    ensures var r := Render(showStartup, n, profile);
      && (!showStartup && profile.None? ==> r == ProfilePicker)
      && (r.Shown? ==> profile == Some(r.profile) && r.view == n.current && !r.view.Profiles?)
      && (!showStartup && profile.Some? && !n.current.Profiles? ==> r == Shown(n.current, profile.value))
  {
  }

  /**
   * handleProfileUpdate: with a current profile, the stored profile of the same
   * id replaces it when there is one; otherwise nothing changes.
   */
  function Refreshed(current: Option<Profile>, stored: seq<Profile>): Option<Profile>
  {
    if current.None? then current
    else
      var id := current.value.id;
      match Find(stored, (p: Profile) => p.id == id)
      case Some(p) => Some(p)
      case None => current
  }

  lemma RefreshedLaws(current: Option<Profile>, stored: seq<Profile>)
    ensures var r := Refreshed(current, stored);
      && (current.None? ==> r.None?)
      && (current.Some? ==> r.Some? && r.value.id == current.value.id)
      && (current.Some? && (forall i :: 0 <= i < |stored| ==> stored[i].id != current.value.id) ==> r == current)
      && (current.Some? && r != current ==> r.value in stored)
  {
  }

  class Shell {
    var currentProfile: Option<Profile>
    var currentView: View
    var previousView: Option<View>
    var showStartup: bool

    function NavState(): Nav
      reads this
    {
      Nav(currentView, previousView)
    }

    /** The shell at start: the startup animation unless this session has seen it. */
    constructor (seenStartup: bool)
      ensures NavState() == Start && currentProfile.None? && showStartup == !seenStartup
    {
      currentProfile := None;
      currentView := Profiles;
      previousView := None;
      showStartup := !seenStartup;
    }

    /** The startup animation's completion. */
    method StartupComplete()
      modifies this
      ensures !showStartup && NavState() == old(NavState()) && currentProfile == old(currentProfile)
    {
      showStartup := false;
    }

    /** handleSelectProfile. */
    method SelectProfile(p: Profile)
      modifies this
      ensures currentProfile == Some(p) && NavState() == SelectNav(old(NavState()))
      ensures showStartup == old(showStartup)
    {
      currentProfile := Some(p);
      currentView := Home;
    }

    /** handleProfileUpdate, reading the stored profiles. */
    method ProfileUpdate(store: Storage.Store)
      modifies this
      ensures currentProfile == Refreshed(old(currentProfile), store.profiles)
      ensures NavState() == old(NavState()) && showStartup == old(showStartup)
    {
      if currentProfile.Some? {
        var id := currentProfile.value.id;
        var updated := Find(store.profiles, (p: Profile) => p.id == id);
        if updated.Some? {
          currentProfile := updated;
        }
      }
    }

    /** handleLogout. */
    method Logout()
      modifies this
      ensures currentProfile.None? && NavState() == LogoutNav(old(NavState()))
      ensures showStartup == old(showStartup)
    {
      currentProfile := None;
      currentView := Profiles;
      previousView := None;
    }

    /** handleShowDetail, handleShowLiveTV, handlePlay, handleShowAbout and the other `handleShow*`. */
    method Show(target: View)
      requires Pushable(target)
      modifies this
      ensures NavState() == Push(old(NavState()), target)
      ensures currentProfile == old(currentProfile) && showStartup == old(showStartup)
    {
      previousView := Some(currentView);
      currentView := target;
    }

    /** handleGoHome. */
    method GoHome()
      modifies this
      ensures NavState() == HomeNav(old(NavState()))
      ensures currentProfile == old(currentProfile) && showStartup == old(showStartup)
    {
      currentView := Home;
      previousView := None;
    }

    /** handleBack. */
    method Back()
      modifies this
      ensures NavState() == BackNav(old(NavState()))
      ensures currentProfile == old(currentProfile) && showStartup == old(showStartup)
    {
      if previousView.Some? {
        currentView := previousView.value;
        previousView := None;
      } else if !currentView.Home? {
        currentView := Home;
      }
    }

    /** What the shell renders now. */
    function Rendered(): Screen
      reads this
    {
      Render(showStartup, NavState(), currentProfile)
    }
  }
}
