/**
 * The splash screen's choice of the first screen, from whether a user is signed in and
 * whether the app lock is on in the preference file.
 */
module Splash {
  import Prefs

  datatype Destination = AppLockScreen | HomeScreen | LoginScreen

  /** The three-way decision: the lock screen only for a signed-in user with the lock on. */
  function NextScreen(signedIn: bool, appLockEnabled: bool): (d: Destination)
    ensures d == AppLockScreen <==> signedIn && appLockEnabled
    ensures d == HomeScreen <==> signedIn && !appLockEnabled
    ensures d == LoginScreen <==> !signedIn
  {
    if signedIn && appLockEnabled then AppLockScreen
    else if signedIn then HomeScreen
    else LoginScreen
  }

  /** The decision as taken after the delay: the lock is read from the preferences, off when never set. */
  function Route(signedIn: bool, prefs: map<string, bool>): (d: Destination)
    ensures d == NextScreen(signedIn, Prefs.IS_APP_LOCK_ENABLED in prefs && prefs[Prefs.IS_APP_LOCK_ENABLED])
  {
    NextScreen(signedIn, Prefs.AppLockEnabled(prefs))
  }

  /** A signed-out user goes to Login, whatever the lock setting. */
  lemma SignedOutIgnoresLock(prefs: map<string, bool>)
    ensures Route(false, prefs) == LoginScreen
  {
  }

  /** On a fresh install a signed-in user goes straight to Home. */
  lemma FreshInstallSkipsLock()
    ensures Route(true, map[]) == HomeScreen
  {
  }

  /** The switch on the Profile screen decides the route: turning it on sends a signed-in user to the lock screen. */
  lemma SwitchDecidesRoute(prefs: map<string, bool>, on: bool)
    ensures Route(true, prefs[Prefs.IS_APP_LOCK_ENABLED := on]) == (if on then AppLockScreen else HomeScreen)
  {
  }
}
