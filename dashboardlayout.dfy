/**
 * The server-rendered dashboard layout: it sends visitors without a user id
 * to the signed-out page, and otherwise lists the guilds linked to the user's
 * profiles for the sidebar. The profile query is left to the store; its
 * result is a parameter.
 */
module DashboardLayout {
  import opened Wrappers
  import opened GuildSelect
  import Auth

  /** The guild a profile is linked to, as stored; its name may be null. */
  datatype StoredGuild = StoredGuild(name: Option<string>)

  /** A user profile row with its linked guild (absent when the link is missing). */
  datatype UserProfile = UserProfile(guildId: string, guild: Option<StoredGuild>)

  /** What the layout does first: redirect, or query the user's profiles. */
  datatype LayoutStep = RedirectTo(path: string) | QueryProfiles(userId: string)

  /** `session?.discord?.user?.id`. */
  function UserIdOf(session: Option<Auth.DiscordSession>): (r: Option<string>)
    ensures r.Some? <==> session.Some? && session.value.user.Some?
    ensures r.Some? ==> r.value == session.value.user.value.id
  {
    if session.Some? && session.value.user.Some? then Some(session.value.user.value.id) else None
  }

  /** `if (!userId) redirect("/signed-out")`: a missing or empty id redirects before any query. */
  function Begin(userId: Option<string>): (r: LayoutStep)
    ensures r.RedirectTo? <==> userId.None? || userId.value == ""
    ensures r.RedirectTo? ==> r.path == "/signed-out"
    ensures r.QueryProfiles? ==> Some(r.userId) == userId
  {
    if userId.Some? && userId.value != "" then QueryProfiles(userId.value) else RedirectTo("/signed-out")
  }

  /** `p.guild?.name ?? p.guildId`: an empty stored name is kept, only a missing one falls back. */
  function DisplayName(p: UserProfile): string
  {
    if p.guild.Some? && p.guild.value.name.Some? then p.guild.value.name.value else p.guildId
  }

  /** `profiles.map(p => ({ id: p.guildId, name: p.guild?.name ?? p.guildId, iconUrl: undefined }))`. */
  function GuildEntries(profiles: seq<UserProfile>): (r: seq<Guild>)
    ensures |r| == |profiles|
    ensures forall i :: 0 <= i < |r| ==>
      r[i] == Guild(profiles[i].guildId, DisplayName(profiles[i]), None)
    decreases |profiles|
  {
    if profiles == [] then []
    else [Guild(profiles[0].guildId, DisplayName(profiles[0]), None)] + GuildEntries(profiles[1..])
  }

  /** The listing commutes with concatenation: order is kept and entries do not interact. */
  lemma {:induction false} GuildEntriesAppend(a: seq<UserProfile>, b: seq<UserProfile>)
    ensures GuildEntries(a + b) == GuildEntries(a) + GuildEntries(b)
    decreases |a|
  {
    if a != [] {
      assert (a + b)[1..] == a[1..] + b;
      GuildEntriesAppend(a[1..], b);
    }
  }

  /** Every entry's name is the stored name when there is one, otherwise the guild id. */
  lemma DisplayNameFallback(p: UserProfile)
    ensures p.guild.Some? && p.guild.value.name.Some? ==> DisplayName(p) == p.guild.value.name.value
    ensures p.guild.None? || p.guild.value.name.None? ==> DisplayName(p) == p.guildId
  {
  }

  /** A signed-in session that carries a user with a non-empty id goes on to the query. */
  lemma SignedInUserIsQueried(session: Auth.DiscordSession)
    requires session.user.Some? && session.user.value.id != ""
    ensures Begin(UserIdOf(Some(session))) == QueryProfiles(session.user.value.id)
  {
  }
}
