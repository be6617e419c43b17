/** The application shell: the current user, the theme and the loading flag,
    the startup sequence, login and logout, and the route table. */
module App {
  import opened Types
  import opened Storage
  import SessionService
  import AnalyticsService

  /** The theme shown at startup: the saved one if there is one, otherwise
      the one the operating system prefers. */
  function InitialTheme(saved: Option<Theme>, systemPrefersDark: bool): (t: Theme)
    ensures saved.Some? ==> t == saved.value
    ensures saved.None? ==> (t == Dark <==> systemPrefersDark)
  {
    if saved.Some? then saved.value else if systemPrefersDark then Dark else Light
  }

  /** The other theme. */
  function Toggled(t: Theme): (r: Theme)
    ensures r != t
  {
    if t == Light then Dark else Light
  }

  /** Toggling twice gives back the theme one started from. */
  lemma ToggledTwice(t: Theme)
    ensures Toggled(Toggled(t)) == t
  {
  }

  datatype Page = LoginView | ChatView | DashboardView

  /** A path either renders a page or redirects to another path. */
  datatype RouteResult = Render(page: Page) | Redirect(to: string)

  /** The route table: the login page only for a visitor, the chat and
      dashboard pages only for a signed-in user, everything else redirected
      by whether there is a user. */
  function Route(path: string, user: Option<User>): (r: RouteResult)
    ensures r == Render(LoginView) <==> path == "/login" && user.None?
    ensures r == Render(ChatView) <==> path == "/chat" && user.Some?
    ensures r == Render(DashboardView) <==> path == "/dashboard" && user.Some?
    ensures r.Redirect? ==> r.to == (if user.Some? then "/chat" else "/login")
  {
    if path == "/login" then
      if user.None? then Render(LoginView) else Redirect("/chat")
    else if path == "/chat" then
      if user.Some? then Render(ChatView) else Redirect("/login")
    else if path == "/dashboard" then
      if user.Some? then Render(DashboardView) else Redirect("/login")
    else Redirect(if user.Some? then "/chat" else "/login")
  }

  /** Following a redirect always reaches a page: no path redirects twice. */
  lemma {:induction false} RedirectSettles(path: string, user: Option<User>)
    ensures Route(path, user).Redirect? ==> Route(Route(path, user).to, user).Render?
  {
  }

  /** The shell's state, with the stores it reads and writes. */
  class Shell {
    var user: Option<User>
    var theme: Theme
    var loading: bool
    const st: Stores

    constructor (st: Stores)
      ensures this.st == st
      ensures user == None && theme == Light && loading
    {
      this.st := st;
      user := None;
      theme := Light;
      loading := true;
    }

    /** Startup: restore the user (starting a session for them), choose the
        theme, end loading, and count the visit in every case. `rnd` is the
        random number the session tracker draws. */
    method Init(systemPrefersDark: bool, rnd: real)
      requires st.Valid()
      requires 0.0 <= rnd < 1.0
      modifies this, st
      ensures st.Valid()
      ensures user == if StoredUser(old(st.local)).Some? then StoredUser(old(st.local)) else old(user)
      ensures theme == InitialTheme(if ThemeKey in old(st.local) then Some(old(st.local)[ThemeKey].theme) else None, systemPrefersDark)
      ensures !loading
      ensures st.local == old(st.local)[AnalyticsKey := AnalyticsValue(
        AnalyticsService.AfterVisit(
          if StoredUser(old(st.local)).Some? then AnalyticsService.AfterSession(AnalyticsService.StoredAnalytics(old(st.local)), rnd)
          else AnalyticsService.StoredAnalytics(old(st.local))))]
      ensures st.session == old(st.session)
    {
      var currentUser := SessionService.GetUser(st);
      if currentUser.Some? {
        user := currentUser;
        AnalyticsService.TrackSession(st, currentUser.value.id, rnd);
      }
      var savedTheme := if ThemeKey in st.local then Some(st.local[ThemeKey].theme) else None;
      theme := InitialTheme(savedTheme, systemPrefersDark);
      loading := false;
      AnalyticsService.TrackVisit(st);
    }

    /** Switches to the other theme and remembers it. */
    method ToggleTheme()
      requires st.Valid()
      modifies this`theme, st
      ensures st.Valid()
      ensures theme == Toggled(old(theme))
      ensures st.local == old(st.local)[ThemeKey := ThemeValue(theme)]
      ensures st.session == old(st.session)
    {
      var newTheme := Toggled(theme);
      theme := newTheme;
      st.local := st.local[ThemeKey := ThemeValue(newTheme)];
    }

    /** Signs `newUser` in, stores them and starts a session for them. */
    method HandleLogin(newUser: User, rnd: real)
      requires st.Valid()
      requires 0.0 <= rnd < 1.0
      modifies this`user, st
      ensures st.Valid()
      ensures user == Some(newUser)
      ensures StoredUser(st.local) == Some(newUser)
      ensures st.local == old(st.local)[UserKey := UserValue(newUser)][AnalyticsKey := AnalyticsValue(
        AnalyticsService.AfterSession(AnalyticsService.StoredAnalytics(old(st.local)), rnd))]
      ensures st.session == old(st.session)
    {
      user := Some(newUser);
      SessionService.SetUser(st, newUser);
      AnalyticsService.TrackSession(st, newUser.id, rnd);
    }

    /** Signs out: forgets the user and the transcript, and leaves the
        analytics record and the theme where they are. */
    method HandleLogout()
      requires st.Valid()
      modifies this`user, st
      ensures st.Valid()
      ensures user == None
      ensures st.local == old(st.local) - {UserKey}
      ensures st.session == old(st.session) - {MessagesKey}
      ensures forall k :: k in old(st.local) && k != UserKey ==> k in st.local && st.local[k] == old(st.local)[k]
    {
      user := None;
      SessionService.ClearAll(st);
    }
  }
}
