/**
 * The dashboard sidebar: which guild its links point at, the four links,
 * which of them is highlighted, and which authentication button it shows.
 */
module Sidebar {
  import opened Wrappers
  import opened JsString
  import opened GuildSelect

  /** `selectedId ?? (hasGuilds ? guilds[0].id : "")`. */
  function CurrentId(pathname: Option<string>, guilds: seq<Guild>): (r: string)
    ensures SelectedId(pathname).Some? ==> r == SelectedId(pathname).value
    ensures SelectedId(pathname).None? ==> r == (if guilds != [] then guilds[0].id else "")
  {
    match SelectedId(pathname)
    case Some(id) => id
    case None => if |guilds| > 0 then guilds[0].id else ""
  }

  datatype NavItem = NavItem(title: string, href: string)

  /** The path suffixes of the four links, in display order. */
  const NavSuffixes: seq<string> := ["", "/settings", "/raids", "/moderation"]

  /** The nav links for guild `current`. */
  function NavItems(current: string): (r: seq<NavItem>)
    ensures |r| == |NavSuffixes| == 4
    ensures forall k :: 0 <= k < 4 ==> r[k].href == DashboardPrefix + current + NavSuffixes[k]
    ensures [r[0].title, r[1].title, r[2].title, r[3].title]
         == ["Dashboard", "Settings", "Raids & Activités", "Modération"]
  {
    var base := DashboardPrefix + current;
    [ NavItem("Dashboard", base),
      NavItem("Settings", base + "/settings"),
      NavItem("Raids & Activités", base + "/raids"),
      NavItem("Modération", base + "/moderation") ]
  }

  /** `pathname?.startsWith(href)`. */
  predicate IsActive(pathname: Option<string>, href: string)
  {
    pathname.Some? && StartsWith(pathname.value, href)
  }

  /** On any guild page the Dashboard link, which points at the selected guild, is highlighted. */
  lemma DashboardActiveOnGuildPages(pathname: Option<string>, guilds: seq<Guild>)
    requires SelectedId(pathname).Some?
    ensures IsActive(pathname, NavItems(CurrentId(pathname, guilds))[0].href)
  {
    var p := pathname.value;
    var id := SelectedId(pathname).value;
    var rest := p[|DashboardPrefix|..];
    var href := DashboardPrefix + id;
    assert rest[..|id|] == id;
    assert p[..|href|] == p[..|DashboardPrefix|] + rest[..|id|];
  }

  /**
   * Prefix matching highlights a parent link too: on the settings page of
   * guild `c` the Dashboard and Settings links are active, the others not.
   */
  lemma SettingsPageHighlights(c: string)
    requires '/' !in c
    ensures var p := Some(DashboardPrefix + c + "/settings");
      var items := NavItems(CurrentId(p, []));
      && IsActive(p, items[0].href) && IsActive(p, items[1].href)
      && !IsActive(p, items[2].href) && !IsActive(p, items[3].href)
  {
    var path := DashboardPrefix + c + "/settings";
    SelectedIdOfGuildPath(c, "/settings");
    var n := |DashboardPrefix + c| + 1;
    assert path[n] == 's';
    assert (DashboardPrefix + c + "/raids")[n] == 'r';
    assert (DashboardPrefix + c + "/moderation")[n] == 'm';
    assert path[..|DashboardPrefix + c|] == DashboardPrefix + c;
    assert path[..|path|] == path;
  }

  /** On "/dashboard/" the selected id is "", which `??` keeps: the links then carry no guild id. */
  lemma EmptySegmentIsKept(guilds: seq<Guild>)
    ensures CurrentId(Some(DashboardPrefix), guilds) == ""
    ensures NavItems(CurrentId(Some(DashboardPrefix), guilds))[0].href == DashboardPrefix
  {
    SelectedIdOfGuildPath("", "");
    assert DashboardPrefix + "" + "" == DashboardPrefix;
  }

  /** The session states of the auth library's `useSession`. */
  datatype SessionStatus = Authenticated | Loading | Unauthenticated

  datatype AuthButton = SignOut(callbackUrl: string) | SignIn(provider: string)

  /** Sign-out (back to "/signed-out") when authenticated; otherwise sign-in with Discord. */
  function AuthButtonFor(status: SessionStatus): (r: AuthButton)
    ensures r.SignOut? <==> status == Authenticated
    ensures r.SignOut? ==> r.callbackUrl == "/signed-out"
    ensures r.SignIn? ==> r.provider == "discord"
  {
    if status == Authenticated then SignOut("/signed-out") else SignIn("discord")
  }
}
