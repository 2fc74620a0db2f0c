/** The splash gate of the app shell: whether a navigation shows the splash
    screen, and the session flag that remembers it was seen. */
module App {
  import opened Common

  /** `document.referrer === '' || document.referrer === window.location.origin` */
  predicate IsDirectLoad(referrer: string, origin: string) {
    referrer == "" || referrer == origin
  }

  /** The splash shows on the root path when the flag is unset or the page
      was loaded directly; a direct load of the root always shows it, and
      no other path ever does. */
  function ShowsSplash(pathname: string, flag: Option<string>, direct: bool): (r: bool)
    ensures r ==> pathname == "/"
    ensures pathname == "/" && direct ==> r
    ensures pathname == "/" && !Truthy(flag) ==> r
    ensures pathname == "/" && Truthy(flag) && !direct ==> !r
  {
    pathname == "/" && (!Truthy(flag) || direct)
  }

  class AppContent {
    var showSplash: bool
    /** The `hasSeenSplash` entry of session storage. */
    var hasSeenSplash: Option<string>

    constructor (stored: Option<string>)
      ensures !showSplash && hasSeenSplash == stored
    {
      showSplash := false;
      hasSeenSplash := stored;
    }

    /** The effect run on each location change. When the splash is shown
        the flag is set to `'true'`; otherwise neither the flag nor
        `showSplash` changes. */
    method OnLocation(pathname: string, referrer: string, origin: string)
      modifies this
      ensures var shown := ShowsSplash(pathname, old(hasSeenSplash), IsDirectLoad(referrer, origin));
        && showSplash == (shown || old(showSplash))
        && hasSeenSplash == if shown then Some("true") else old(hasSeenSplash)
    {
      var isDirectLoad := referrer == "" || referrer == origin;
      if isDirectLoad && pathname == "/" {
        hasSeenSplash := None;
      }
      var seen := hasSeenSplash;
      if pathname == "/" && (!Truthy(seen) || isDirectLoad) {
        showSplash := true;
        hasSeenSplash := Some("true");
      }
    }

    method HandleSplashComplete()
      modifies this`showSplash
      ensures !showSplash
    {
      showSplash := false;
    }
  }
}
