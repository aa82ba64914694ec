/**
 * The pharmacy top bar (src/components/TopBar_pharmacy.jsx): a greeting
 * chosen by the hour, a dropdown toggle, and logout.
 */
module TopBar {
  import opened Browser

  const Morning := "Good Morning!"
  const Afternoon := "Good Afternoon!"
  const Night := "Good Night!"
  const LoggedInKey := "isLoggedIn"
  const LoginPath := "/login"

  /** The greeting for the hour of `new Date().getHours()`. */
  function Greeting(hours: int): (g: string)
    ensures g == Morning <==> 5 <= hours < 12
    ensures g == Afternoon <==> 12 <= hours < 18
    ensures g == Night <==> !(5 <= hours < 18)
  {
    if hours >= 5 && hours < 12 then Morning
    else if hours >= 12 && hours < 18 then Afternoon
    else Night
  }

  /** Over one day's hours the bar shows exactly the three greetings, each for a contiguous span. */
  lemma GreetingsOfTheDay()
    ensures (set h | 0 <= h < 24 :: Greeting(h)) == {Morning, Afternoon, Night}
    ensures forall h :: 0 <= h < 5 || 18 <= h < 24 ==> Greeting(h) == Night
  {
    var day := set h | 0 <= h < 24 :: Greeting(h);
    assert Greeting(5) in day && Greeting(12) in day && Greeting(0) in day;
  }

  class TopBarPharmacy {
    var greeting: string
    var showDropdown: bool

    constructor ()
      ensures greeting == "" && !showDropdown
    {
      greeting, showDropdown := "", false;
    }

    /** The mount effect, given the current hour. */
    method SetGreeting(hours: int)
      modifies this`greeting
      ensures greeting == Greeting(hours)
    {
      if hours >= 5 && hours < 12 {
        greeting := Morning;
      } else if hours >= 12 && hours < 18 {
        greeting := Afternoon;
      } else {
        greeting := Night;
      }
    }

    /** The dropdown arrow's click handler. */
    method ToggleDropdown()
      modifies this`showDropdown
      ensures showDropdown == !old(showDropdown)
    {
      showDropdown := !showDropdown;
    }

    /**
     * `handleLogout`: the login flag leaves both storages, nothing else in
     * them changes, and the route becomes the login page.
     */
    method HandleLogout(session: Storage, local: Storage) returns (navigateTo: string)
      modifies session, local
      ensures session.items == old(session.items) - {LoggedInKey}
      ensures local.items == old(local.items) - {LoggedInKey}
      ensures session.GetItem(LoggedInKey).None? && local.GetItem(LoggedInKey).None?
      ensures navigateTo == LoginPath
    {
      session.RemoveItem(LoggedInKey);
      local.RemoveItem(LoggedInKey);
      navigateTo := LoginPath;
    }
  }

  /** Clicking the arrow twice closes the menu it opened and leaves the greeting alone. */
  method ToggleTwice(bar: TopBarPharmacy)
    modifies bar
    ensures bar.showDropdown == old(bar.showDropdown)
    ensures bar.greeting == old(bar.greeting)
  {
    bar.ToggleDropdown();
    bar.ToggleDropdown();
  }
}
