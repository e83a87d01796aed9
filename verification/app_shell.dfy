/**
 * The application shell: the sign-in gate, the mapping from the navigation
 * tab to the page, and the SOS button mounted beside every page once the
 * rider is signed in.
 */
module AppShell {

  import opened AppContext

  datatype Page = AuthScreen | HomeScreen | BookingScreen | SettingsScreen | ProfileScreen

  /** What the shell mounts: one page and, or not, the SOS button. */
  datatype Screen = Screen(page: Page, sosButton: bool)

  const InitialTab: string := "home"

  /** The tab ids the navigation bar offers, in its order. */
  const NavTabs: seq<string> := ["home", "book", "settings", "profile"]

  /** The tab switch; an unknown tab shows the home page. */
  function PageForTab(tab: string): Page {
    if tab == "home" then HomeScreen
    else if tab == "book" then BookingScreen
    else if tab == "settings" then SettingsScreen
    else if tab == "profile" then ProfileScreen
    else HomeScreen
  }

  function Render(s: AppState, tab: string): (screen: Screen) {
    if !s.isAuthenticated then Screen(AuthScreen, false) else Screen(PageForTab(tab), true)
  }

  /**
   * Signed out, the sign-in page alone shows whatever the tab; signed in, a
   * tab page shows with the SOS button beside it, never the sign-in page.
   */
  lemma AuthenticationGate(s: AppState, tab: string)
    ensures !s.isAuthenticated ==> Render(s, tab) == Screen(AuthScreen, false)
    ensures s.isAuthenticated ==> Render(s, tab).sosButton && Render(s, tab).page != AuthScreen
  {
  }

  /** The four navigation tabs reach four different pages, and every other tab value reaches home. */
  lemma TabsReachTheirPages(tab: string)
    ensures PageForTab(NavTabs[0]) == HomeScreen && PageForTab(NavTabs[1]) == BookingScreen
    ensures PageForTab(NavTabs[2]) == SettingsScreen && PageForTab(NavTabs[3]) == ProfileScreen
    ensures tab !in NavTabs ==> PageForTab(tab) == HomeScreen
    ensures PageForTab(tab) != AuthScreen
  {
  }

  /** On first load the rider is signed out on the home tab, so the sign-in page shows. */
  lemma FirstScreen()
    ensures Render(Initial, InitialTab) == Screen(AuthScreen, false)
    ensures PageForTab(InitialTab) == HomeScreen
  {
  }
}
